/** What a login proves, what password it takes, and who may administer credentials. */
module Passwords {
  import opened Values
  import opened Contracts
  import opened Rbac
  import opened Entitlement
  import opened C = Credentials
  import opened CredentialRuns
  import L = Limiter

  // ---- the indexes are exact ----------------------------------------------------------------------

  /** Slugs lead to exactly the tenants that have them. */
  ghost predicate SlugsExact(tenants: map<string, TenantRow>, slugs: map<string, string>) {
    && (forall slug | slug in slugs :: slugs[slug] in tenants && tenants[slugs[slug]].slug == slug)
    && (forall t | t in tenants :: tenants[t].slug in slugs && slugs[tenants[t].slug] == t)
  }

  /** Emails lead, within a tenant, to exactly the users that have them. */
  ghost predicate EmailsExact(users: map<string, UserRow>, emails: map<TenantKey, string>) {
    && (forall k | k in emails ::
          && emails[k] in users
          && users[emails[k]].tenantId == k.tenantId && users[emails[k]].email == k.key)
    && (forall u | u in users ::
          var k := TenantKey(users[u].tenantId, users[u].email); k in emails && emails[k] == u)
  }

  ghost predicate Exact(s: Tables) {
    SlugsExact(s.tenants, s.slugs) && EmailsExact(s.users, s.emails)
  }

  /** A new tenant's slug is not taken. */
  lemma BootstrapIsFresh(
    x: Setup, s: Tables, slug: string, email: string, password: string, salt: string, tenantId: string, orgId: string,
    adminId: string)
    ensures var w := Bootstrap(x, s, slug, email, password, salt, tenantId, orgId, adminId).write;
            w.NewTenant? ==> w.tenant.slug !in s.slugs
  {
  }

  lemma NewTenantsAreFresh(x: Setup, s: Tables, t: Timed)
    requires Sound(s) && Decide(x, s, t).write.NewTenant?
    ensures Decide(x, s, t).write.tenant.slug !in s.slugs
  {
    hide Bootstrap, Sound;
    CallIsLawful(x, s, t);
    match t.call {
      case BootstrapCall(slug, email, password, salt, tenantId, orgId, adminId) =>
        BootstrapIsFresh(x, s, slug, email, password, salt, tenantId, orgId, adminId);
    }
  }

  lemma WriteKeepsSlugs(x: Setup, s: Tables, t: Timed, w: Write, reply: Reply)
    requires SlugsExact(s.tenants, s.slugs) && LawfulWrite(x, s, t, w, reply)
    requires w.NewTenant? ==> w.tenant.slug !in s.slugs
    ensures SlugsExact(Commit(s, w).tenants, Commit(s, w).slugs)
  {
  }

  /** What keeps the emails exact: new users are new, and others change only their status. */
  predicate KeepsUsers(s: Tables, w: Write) {
    match w
    case NewTenant(_, _, admin, _) =>
      admin.id !in s.users && TenantKey(admin.tenantId, admin.email) !in s.emails
    case NewUser(user, _) => user.id !in s.users && TenantKey(user.tenantId, user.email) !in s.emails
    case UserStatus(id, user) => id in s.users && user == s.users[id].(active := user.active)
    case _ => true
  }

  lemma LawfulKeepsUsers(x: Setup, s: Tables, t: Timed, w: Write, reply: Reply)
    requires LawfulWrite(x, s, t, w, reply)
    ensures KeepsUsers(s, w)
  {
  }

  lemma WriteKeepsEmails(s: Tables, w: Write)
    requires EmailsExact(s.users, s.emails) && KeepsUsers(s, w)
    ensures EmailsExact(Commit(s, w).users, Commit(s, w).emails)
  {
    hide EmailsExact;
    match w {
      case NewTenant(_, _, admin, _) => AddedUserKeepsEmails(s.users, s.emails, admin);
      case NewUser(user, _) => AddedUserKeepsEmails(s.users, s.emails, user);
      case UserStatus(id, user) => SwitchedUserKeepsEmails(s.users, s.emails, id, user);
      case _ =>
    }
  }

  lemma AddedUserKeepsEmails(users: map<string, UserRow>, emails: map<TenantKey, string>, user: UserRow)
    requires EmailsExact(users, emails)
    requires user.id !in users && TenantKey(user.tenantId, user.email) !in emails
    ensures EmailsExact(users[user.id := user], emails[TenantKey(user.tenantId, user.email) := user.id])
  {
  }

  lemma SwitchedUserKeepsEmails(
    users: map<string, UserRow>, emails: map<TenantKey, string>, id: string, user: UserRow)
    requires EmailsExact(users, emails) && id in users && user == users[id].(active := user.active)
    ensures EmailsExact(users[id := user], emails)
  {
  }

  lemma {:induction false} IndexesAreExact(x: Setup, calls: seq<Timed>)
    ensures Exact(After(x, calls))
  {
    hide Decide, Commit, Sound, LawfulWrite, SlugsExact, EmailsExact, KeepsUsers;
    if calls == [] {
      EmptyIsExact();
    } else {
      var init, t := calls[..|calls| - 1], calls[|calls| - 1];
      var s := After(x, init);
      IndexesAreExact(x, init);
      RunIsSound(x, init);
      CallIsLawful(x, s, t);
      if Decide(x, s, t).write.NewTenant? {
        NewTenantsAreFresh(x, s, t);
      }
      WriteKeepsSlugs(x, s, t, Decide(x, s, t).write, Decide(x, s, t).reply);
      LawfulKeepsUsers(x, s, t, Decide(x, s, t).write, Decide(x, s, t).reply);
      WriteKeepsEmails(s, Decide(x, s, t).write);
    }
  }

  lemma EmptyIsExact()
    ensures SlugsExact(map[], map[]) && EmailsExact(map[], map[])
  {
  }

  // ---- logins --------------------------------------------------------------------------------------

  /** The slug, trimmed, is that of the user's tenant; the email, normalized, is the user's; tenant
      and user are active; and the password passes against the hash stored for the user. */
  predicate Proves(x: Setup, s: Tables, slug: string, email: string, password: string, u: string) {
    && u in s.users && s.users[u].active && s.users[u].email == x.normalize(email)
    && s.users[u].tenantId in s.tenants
    && s.tenants[s.users[u].tenantId].active && s.tenants[s.users[u].tenantId].slug == x.trim(slug)
    && x.verifyPassword(password, s.users[u].passwordHash)
  }

  lemma IdentifiedExactly(x: Setup, s: Tables, slug: string, email: string, password: string)
    requires Sound(s) && Exact(s)
    ensures var found := Identified(x, s, x.trim(slug), x.normalize(email), password);
            && (found.Some? ==>
                  && Proves(x, s, slug, email, password, found.value.id)
                  && s.users[found.value.id] == found.value
                  && TenantBySlug(s, x.trim(slug)).Some?
                  && TenantBySlug(s, x.trim(slug)).value.id == found.value.tenantId)
            && (found.None? ==> forall u :: !Proves(x, s, slug, email, password, u))
  {
  }

  /** Ten failures are on record for the tenant and email in a window younger than fifteen minutes. */
  predicate LockedOut(x: Setup, s: Tables, slug: string, email: string, now: int) {
    var key := x.trim(slug) + "|" + x.normalize(email);
    key in s.limits && now - s.limits[key].start < 900_000_000_000 && s.limits[key].failures >= 10
  }

  /** In every run a login is answered exactly so: locked out while ten failures are on record; else
      refused if and only if no active user of an active tenant is named whose stored hash passes the
      password; else, under a token not yet in use, with a session for that user in its tenant, and
      nothing but that session is stored. */
  lemma LoginsProveWhoTheyAre(
    x: Setup, calls: seq<Timed>, slug: string, email: string, password: string, secret: string, now: int)
    ensures var s := After(x, calls);
            var out := Login(x, s, slug, email, password, secret, now);
            && (out.reply == Refused(RateLimited) <==> LockedOut(x, s, slug, email, now))
            && (!LockedOut(x, s, slug, email, now) ==>
                  (out.reply == Refused(Unauthorized)
                   <==> forall u :: !Proves(x, s, slug, email, password, u)))
            && (out.reply.LoginReply?
                <==> && !LockedOut(x, s, slug, email, now)
                     && (exists u :: Proves(x, s, slug, email, password, u))
                     && x.hashToken("lds_" + secret) !in s.sessions)
            && (out.reply.LoginReply? ==>
                  var u := out.reply.login.userId;
                  && Proves(x, s, slug, email, password, u)
                  && out.reply.login.tenantId == s.users[u].tenantId && out.reply.login.token == "lds_" + secret
                  && out.reply.login.platformAdmin == s.users[u].platformAdmin
                  && (forall k :: k in out.reply.login.roleKeys
                                  <==> Assignment(s.users[u].tenantId, u, k) in s.assignments)
                  && out.write.NewSession? && out.write.hash == x.hashToken("lds_" + secret)
                  && out.write.session
                     == Session(s.users[u].tenantId, u,
                                if s.users[u].defaultOrg.Some? then s.users[u].defaultOrg.value else "",
                                now + x.sessionTtl, false))
            && (!out.reply.LoginReply? ==> out.write.Limits?)
  {
    hide Identified, Proves, Exact, Sound, TenantBySlug;
    IndexesAreExact(x, calls);
    RunIsSound(x, calls);
    IdentifiedExactly(x, After(x, calls), slug, email, password);
  }

  // ---- where passwords come from ---------------------------------------------------------------------

  predicate MakesAccounts(c: Call) {
    c.BootstrapCall? || c.CreateUserCall?
  }

  /** The account is the one the call made: its id, tenant and organization, its email normalized and
      found valid, the hash of its password, found strong, and no platform rights. A founder's tenant
      has a valid slug. */
  predicate MadeBy(x: Setup, c: Call, user: UserRow)
    requires MakesAccounts(c)
  {
    && user.id == (if c.BootstrapCall? then c.adminId else c.id)
    && user.tenantId == (if c.BootstrapCall? then c.tenantId else c.ctx.tenantId)
    && user.defaultOrg == Some(if c.BootstrapCall? then c.orgId else c.ctx.orgId) && !user.platformAdmin
    && user.email == x.normalize(c.email) && x.validEmail(user.email)
    && user.passwordHash == x.hashPassword(c.password, c.salt) && x.strongPassword(c.password)
    && (c.BootstrapCall? ==> x.validSlug(x.normalize(c.slug)))
  }

  /** Call i was accepted, and made the account. */
  ghost predicate MadeAt(x: Setup, calls: seq<Timed>, i: int, user: UserRow) {
    && 0 <= i < |calls| && MakesAccounts(calls[i].call) && MadeBy(x, calls[i].call, user)
    && var reply := Decide(x, After(x, calls[..i]), calls[i]).reply; reply.TenantReply? || reply.UserReply?
  }

  lemma NewAccountsAreMade(x: Setup, s: Tables, t: Timed)
    ensures var w := Decide(x, s, t).write;
            && (w.NewTenant? ==>
                  && MakesAccounts(t.call) && MadeBy(x, t.call, w.admin) && Decide(x, s, t).reply.TenantReply?
                  && w.admin.active && w.tenant.active)
            && (w.NewUser? ==>
                  && MakesAccounts(t.call) && MadeBy(x, t.call, w.user) && Decide(x, s, t).reply.UserReply?
                  && w.user.active)
  {
  }

  lemma UsersChange(x: Setup, s: Tables, t: Timed, w: Write, reply: Reply, u: string)
    requires LawfulWrite(x, s, t, w, reply) && u in Commit(s, w).users
    ensures || (u in s.users && Commit(s, w).users[u].(active := s.users[u].active) == s.users[u])
            || (w.NewTenant? && w.admin == Commit(s, w).users[u])
            || (w.NewUser? && w.user == Commit(s, w).users[u])
  {
  }

  /** In every run every stored user was made by some call of the run, and still has the email, the
      tenant and the password hash it was made with. */
  lemma {:induction false} AccountsWereMade(x: Setup, calls: seq<Timed>, u: string)
    requires u in After(x, calls).users
    ensures exists i :: MadeAt(x, calls, i, After(x, calls).users[u])
  {
    hide Decide, Commit, Sound, LawfulWrite, MadeBy;
    var init, t := calls[..|calls| - 1], calls[|calls| - 1];
    var s := After(x, init);
    RunIsSound(x, init);
    CallIsLawful(x, s, t);
    UsersChange(x, s, t, Decide(x, s, t).write, Decide(x, s, t).reply, u);
    NewAccountsAreMade(x, s, t);
    var user := After(x, calls).users[u];
    if u in s.users && user.(active := s.users[u].active) == s.users[u] {
      AccountsWereMade(x, init, u);
      var i :| MadeAt(x, init, i, s.users[u]);
      StillMade(x, calls[i].call, s.users[u], user);
      assert calls[..i] == init[..i];
      assert MadeAt(x, calls, i, user);
    } else {
      assert MadeAt(x, calls, |calls| - 1, user);
    }
  }

  lemma StillMade(x: Setup, c: Call, a: UserRow, b: UserRow)
    requires MakesAccounts(c) && MadeBy(x, c, a) && b.(active := a.active) == a
    ensures MadeBy(x, c, b)
  {
  }

  /** In every run a login that succeeds brought a password that passes against the hash of the one
      the account was made with; with hashes that only their own password passes, that very one. */
  lemma OnlyTheSetPasswordOpens(
    x: Setup, calls: seq<Timed>, slug: string, email: string, password: string, secret: string, now: int)
    requires Login(x, After(x, calls), slug, email, password, secret, now).reply.LoginReply?
    ensures var login := Login(x, After(x, calls), slug, email, password, secret, now).reply.login;
            login.userId in After(x, calls).users
            && exists i :: MadeAt(x, calls, i, After(x, calls).users[login.userId])
                           && x.verifyPassword(password, x.hashPassword(calls[i].call.password, calls[i].call.salt))
                           && ((forall p, q, salt :: x.verifyPassword(p, x.hashPassword(q, salt)) ==> p == q)
                               ==> password == calls[i].call.password)
  {
    hide Login, After;
    LoginsProveWhoTheyAre(x, calls, slug, email, password, secret, now);
    var u := Login(x, After(x, calls), slug, email, password, secret, now).reply.login.userId;
    AccountsWereMade(x, calls, u);
    var i :| MadeAt(x, calls, i, After(x, calls).users[u]);
  }

  // ---- accounts and tenants are on or off as last switched ---------------------------------------------

  /** The last accepted switch of the user, if there was one, was to active. */
  predicate SwitchedOn(x: Setup, calls: seq<Timed>, u: string) {
    if calls == [] then true
    else
      var init, t := calls[..|calls| - 1], calls[|calls| - 1];
      if t.call.SetUserCall? && t.call.userId == u && Decide(x, After(x, init), t).reply.UserReply?
      then t.call.status == "active"
      else SwitchedOn(x, init, u)
  }

  /** The last accepted switch of the tenant, if there was one, was to active. */
  predicate TenantSwitchedOn(x: Setup, calls: seq<Timed>, tenantId: string) {
    if calls == [] then true
    else
      var init, t := calls[..|calls| - 1], calls[|calls| - 1];
      if t.call.SetTenantCall? && t.call.tenantId == tenantId && Decide(x, After(x, init), t).reply.TenantReply?
      then t.call.status == "active"
      else TenantSwitchedOn(x, init, tenantId)
  }

  predicate IsOn(s: Tables, u: string) {
    u in s.users ==> s.users[u].active
  }

  predicate TenantIsOn(s: Tables, tenantId: string) {
    tenantId in s.tenants ==> s.tenants[tenantId].active
  }

  lemma SwitchWritten(x: Setup, s: Tables, t: Timed, w: Write, reply: Reply, u: string, tenantId: string)
    requires LawfulWrite(x, s, t, w, reply)
    requires (w.NewTenant? ==> w.admin.active && w.tenant.active) && (w.NewUser? ==> w.user.active)
    ensures var accepted := t.call.SetUserCall? && t.call.userId == u && reply.UserReply?;
            && (accepted ==> u in s.users)
            && (IsOn(Commit(s, w), u) <==> if accepted then t.call.status == "active" else IsOn(s, u))
    ensures var accepted := t.call.SetTenantCall? && t.call.tenantId == tenantId && reply.TenantReply?;
            && (accepted ==> tenantId in s.tenants)
            && (TenantIsOn(Commit(s, w), tenantId)
                <==> if accepted then t.call.status == "active" else TenantIsOn(s, tenantId))
  {
  }

  lemma SwitchStep(x: Setup, s: Tables, t: Timed, u: string, tenantId: string)
    requires Sound(s)
    ensures var accepted := t.call.SetUserCall? && t.call.userId == u && Decide(x, s, t).reply.UserReply?;
            && (accepted ==> u in s.users)
            && (IsOn(Step(x, s, t), u) <==> if accepted then t.call.status == "active" else IsOn(s, u))
    ensures var accepted := t.call.SetTenantCall? && t.call.tenantId == tenantId && Decide(x, s, t).reply.TenantReply?;
            && (accepted ==> tenantId in s.tenants)
            && (TenantIsOn(Step(x, s, t), tenantId)
                <==> if accepted then t.call.status == "active" else TenantIsOn(s, tenantId))
  {
    hide Decide, Commit, LawfulWrite, IsOn, TenantIsOn;
    CallIsLawful(x, s, t);
    NewAccountsAreMade(x, s, t);
    SwitchWritten(x, s, t, Decide(x, s, t).write, Decide(x, s, t).reply, u, tenantId);
  }

  /** In every run users and tenants are active exactly unless their last accepted switch was to
      something else. */
  lemma {:induction false} ActiveAsLastSwitched(x: Setup, calls: seq<Timed>, u: string, tenantId: string)
    ensures var s := After(x, calls);
            && (u in s.users ==> (s.users[u].active <==> SwitchedOn(x, calls, u)))
            && (tenantId in s.tenants ==> (s.tenants[tenantId].active <==> TenantSwitchedOn(x, calls, tenantId)))
            && (u !in s.users ==> SwitchedOn(x, calls, u))
            && (tenantId !in s.tenants ==> TenantSwitchedOn(x, calls, tenantId))
  {
    hide Decide, Commit, Sound;
    if calls != [] {
      var init, t := calls[..|calls| - 1], calls[|calls| - 1];
      ActiveAsLastSwitched(x, init, u, tenantId);
      RunIsSound(x, init);
      SwitchStep(x, After(x, init), t, u, tenantId);
    }
  }

  // ---- new accounts and keys open ------------------------------------------------------------------------

  /** The slug is that of the new account's tenant, which for all but a founder has to be active. */
  predicate LeadsTo(x: Setup, s: Tables, c: Call, slug: string)
    requires MakesAccounts(c)
  {
    if c.BootstrapCall? then x.trim(slug) == x.normalize(c.slug)
    else c.ctx.tenantId in s.tenants && s.tenants[c.ctx.tenantId] == TenantRow(c.ctx.tenantId, x.trim(slug), true)
  }

  lemma NewAccountsProve(x: Setup, s: Tables, t: Timed, slug: string)
    requires MakesAccounts(t.call) && LeadsTo(x, s, t.call, slug) && !Decide(x, s, t).reply.Refused?
    requires x.verifyPassword(t.call.password, x.hashPassword(t.call.password, t.call.salt))
    ensures Proves(x, Step(x, s, t), slug, t.call.email, t.call.password,
                   if t.call.BootstrapCall? then t.call.adminId else t.call.id)
  {
    hide May;
  }

  lemma OneProves(x: Setup, s: Tables, slug: string, email: string, password: string, u: string, v: string)
    requires Exact(s) && Proves(x, s, slug, email, password, u) && Proves(x, s, slug, email, password, v)
    ensures u == v
  {
    assert TenantKey(s.users[u].tenantId, s.users[u].email) in s.emails;
  }

  /** Whoever was just made an account, as a founder or by an administrator, can log in with the
      password it was made with, and as no one else. */
  lemma NewAccountsLogIn(x: Setup, calls: seq<Timed>, t: Timed, slug: string, secret: string, now: int)
    requires MakesAccounts(t.call) && LeadsTo(x, After(x, calls), t.call, slug)
    requires !Decide(x, After(x, calls), t).reply.Refused?
    requires x.verifyPassword(t.call.password, x.hashPassword(t.call.password, t.call.salt))
    ensures var s := After(x, calls + [t]);
            var reply := Login(x, s, slug, t.call.email, t.call.password, secret, now).reply;
            && (reply.LoginReply?
                <==> !LockedOut(x, s, slug, t.call.email, now) && x.hashToken("lds_" + secret) !in s.sessions)
            && (reply.LoginReply? ==>
                  reply.login.userId == if t.call.BootstrapCall? then t.call.adminId else t.call.id)
  {
    hide Decide, Commit, Login, Proves, Exact, LeadsTo, LockedOut;
    var s := After(x, calls + [t]);
    assert (calls + [t])[..|calls|] == calls;
    NewAccountsProve(x, After(x, calls), t, slug);
    IndexesAreExact(x, calls + [t]);
    LoginsProveWhoTheyAre(x, calls + [t], slug, t.call.email, t.call.password, secret, now);
    var reply := Login(x, s, slug, t.call.email, t.call.password, secret, now).reply;
    if reply.LoginReply? {
      OneProves(x, s, slug, t.call.email, t.call.password, reply.login.userId,
                if t.call.BootstrapCall? then t.call.adminId else t.call.id);
    }
  }

  /** A new key opens at once if its tenant is active, as the principal it names or else its maker, with
      that principal's roles and no platform rights. */
  lemma NewKeysOpen(
    x: Setup, s: Tables, ctx: AuthContext, principalId: Option<string>, principalType: string, secret: string,
    later: int)
    requires CreateKey(x, s, ctx, principalId, principalType, secret).reply.KeyReply?
    ensures var out := CreateKey(x, s, ctx, principalId, principalType, secret);
            var reply := Authenticate(x, Commit(s, out.write), out.reply.token, later);
            var principal := if principalId.Some? then principalId.value else ctx.actorId;
            && out.reply.token == "ldb_" + secret
            && (reply.ActorReply? <==> ctx.tenantId in s.tenants && s.tenants[ctx.tenantId].active)
            && (reply.ActorReply? ==>
                  && reply.actor.actorId == principal && reply.actor.tenantId == ctx.tenantId
                  && reply.actor.orgId == ctx.orgId && !reply.actor.isPlatformAdmin
                  && reply.actor.actorType == (if principalType == "user" then User else ServiceAccount)
                  && (principalType == "user" ==> principal in s.users && s.users[principal].tenantId == ctx.tenantId)
                  && (forall k :: k in reply.actor.roleKeys
                                  <==> Assignment(ctx.tenantId, principal, k) in s.assignments))
  {
    hide May;
    assert HasPrefix(KEY_PREFIX + secret, KEY_PREFIX);
  }

  // ---- the roles of new accounts -----------------------------------------------------------------------

  lemma {:induction false} RolesAreAdded(
    rows: seq<Assignment>, tenantId: string, principalId: string, roleKeys: seq<string>, a: Assignment)
    ensures var after := AddRoles(rows, tenantId, principalId, roleKeys);
            after.Some? ==>
              (a in after.value
               <==> a in rows || (a.tenantId == tenantId && a.principalId == principalId && a.roleKey in roleKeys))
  {
    if roleKeys != [] {
      assert roleKeys == roleKeys[..|roleKeys| - 1] + [roleKeys[|roleKeys| - 1]];
      RolesAreAdded(rows, tenantId, principalId, roleKeys[..|roleKeys| - 1], a);
    }
  }

  /** The roles a call gives out: the founder's, those of a new account, or the one assigned. */
  predicate Gives(c: Call, a: Assignment) {
    match c
    case BootstrapCall(_, _, _, _, tenantId, _, adminId) => a == Assignment(tenantId, adminId, "tenant_admin")
    case CreateUserCall(ctx, _, _, _, roleKeys, id) =>
      a.tenantId == ctx.tenantId && a.principalId == id && a.roleKey in roleKeys
    case CreateServiceCall(ctx, roleKeys, id) =>
      a.tenantId == ctx.tenantId && a.principalId == id && a.roleKey in roleKeys
    case AssignRoleCall(ctx, id, roleKey) => a == Assignment(ctx.tenantId, id, roleKey)
    case _ => false
  }

  /** An accepted call adds exactly the roles it gives out, and no call takes a role away or adds
      another. */
  lemma RolesAreGivenOut(x: Setup, s: Tables, t: Timed, a: Assignment)
    ensures a in Step(x, s, t).assignments
            <==> a in s.assignments || (Gives(t.call, a) && !Decide(x, s, t).reply.Refused?)
  {
    hide May, Bootstrap, CreateUser, CreateService;
    match t.call {
      case BootstrapCall(slug, email, password, salt, tenantId, orgId, adminId) =>
        FounderGetsRole(x, s, slug, email, password, salt, tenantId, orgId, adminId, a);
      case CreateUserCall(ctx, email, password, salt, roleKeys, id) =>
        UsersGetRoles(x, s, ctx, email, password, salt, roleKeys, id, a);
      case CreateServiceCall(ctx, roleKeys, id) => ServicesGetRoles(x, s, ctx, roleKeys, id, a);
      case _ =>
    }
  }

  lemma FounderGetsRole(
    x: Setup, s: Tables, slug: string, email: string, password: string, salt: string, tenantId: string, orgId: string,
    adminId: string, a: Assignment)
    ensures var o := Bootstrap(x, s, slug, email, password, salt, tenantId, orgId, adminId);
            a in RolesAfter(s.assignments, o.write)
            <==> a in s.assignments || (a == Assignment(tenantId, adminId, "tenant_admin") && !o.reply.Refused?)
  {
    RolesAreAdded(s.assignments, tenantId, adminId, [TENANT_ADMIN], a);
  }

  lemma UsersGetRoles(
    x: Setup, s: Tables, ctx: AuthContext, email: string, password: string, salt: string, roleKeys: seq<string>,
    id: string, a: Assignment)
    ensures var o := CreateUser(x, s, ctx, email, password, salt, roleKeys, id);
            a in RolesAfter(s.assignments, o.write)
            <==> a in s.assignments
                 || (a.tenantId == ctx.tenantId && a.principalId == id && a.roleKey in roleKeys && !o.reply.Refused?)
  {
    hide May;
    RolesAreAdded(s.assignments, ctx.tenantId, id, roleKeys, a);
  }

  lemma ServicesGetRoles(x: Setup, s: Tables, ctx: AuthContext, roleKeys: seq<string>, id: string, a: Assignment)
    ensures var o := CreateService(x, s, ctx, roleKeys, id);
            a in RolesAfter(s.assignments, o.write)
            <==> a in s.assignments
                 || (a.tenantId == ctx.tenantId && a.principalId == id && a.roleKey in roleKeys && !o.reply.Refused?)
  {
    hide May;
    RolesAreAdded(s.assignments, ctx.tenantId, id, roleKeys, a);
  }

  // ---- administration ----------------------------------------------------------------------------------

  /** The caller of an administrative call; bootstrapping has none. */
  function Caller(c: Call): Option<AuthContext> {
    match c
    case CreateUserCall(ctx, _, _, _, _, _) => Some(ctx)
    case CreateServiceCall(ctx, _, _) => Some(ctx)
    case AssignRoleCall(ctx, _, _) => Some(ctx)
    case CreateKeyCall(ctx, _, _, _) => Some(ctx)
    case SetUserCall(ctx, _, _) => Some(ctx)
    case SetTenantCall(ctx, _, _) => Some(ctx)
    case _ => None
  }

  ghost predicate MayConfigure(x: Setup, ctx: AuthContext, resource: string) {
    Entitled(x.access, ctx, Configure, resource, None)
  }

  /** What an administrative call asks of its caller. Switching a user also reads the user back, once
      the status is one there is and not the caller's own undoing. */
  ghost predicate LacksFor(x: Setup, c: Call) {
    match c
    case CreateUserCall(ctx, _, _, _, _, _) => !MayConfigure(x, ctx, "admin:users")
    case CreateServiceCall(ctx, _, _) => !MayConfigure(x, ctx, "admin:users")
    case AssignRoleCall(ctx, _, _) => !MayConfigure(x, ctx, "admin:roles")
    case CreateKeyCall(ctx, _, _, _) => !MayConfigure(x, ctx, "admin:api_keys")
    case SetUserCall(ctx, userId, status) =>
      !MayConfigure(x, ctx, "admin:users")
      || ((status == "active" || (status == "disabled" && userId != ctx.actorId))
          && !Entitled(x.access, ctx, Read, "admin:users", None))
    case SetTenantCall(ctx, _, _) => !Unlimited(ctx)
    case _ => false
  }

  lemma MayMeans(x: Setup, ctx: AuthContext)
    ensures forall action, resource ::
              May(x, ctx, action, resource) <==> Entitled(x.access, ctx, action, resource, None)
  {
    hide Authorized, Entitled;
    forall action, resource
      ensures May(x, ctx, action, resource) <==> Entitled(x.access, ctx, action, resource, None)
    {
      AuthorizedExactlyWhenEntitled(x.access, ctx, action, resource, None);
    }
  }

  /** An administrative call is refused as forbidden exactly when its caller lacks what it asks for,
      and then writes nothing; what it does write lies in its caller's tenant, the switching of whole
      tenants apart. */
  lemma AdministrationIsForTheEntitled(x: Setup, s: Tables, t: Timed)
    requires Caller(t.call).Some?
    ensures Decide(x, s, t).reply == Refused(Forbidden) <==> LacksFor(x, t.call)
    ensures LacksFor(x, t.call) ==> Decide(x, s, t).write == NoWrite
    ensures var w, tenantId := Decide(x, s, t).write, Caller(t.call).value.tenantId;
            && (w.NewUser? ==> w.user.tenantId == tenantId)
            && (w.NewService? ==> w.service.tenantId == tenantId)
            && (w.NewRole? ==> w.row.tenantId == tenantId)
            && (w.NewKey? ==> w.key.tenantId == tenantId)
            && (w.UserStatus? ==> w.user.tenantId == tenantId)
  {
    hide May, Entitled;
    MayMeans(x, Caller(t.call).value);
  }
}
