/** What holds of credentials over every run of identity calls. */
module CredentialRuns {
  import opened Values
  import opened Contracts
  import opened Rbac
  import opened C = Credentials
  import L = Limiter

  datatype Call =
    | BootstrapCall(
        slug: string, email: string, password: string, salt: string, tenantId: string, orgId: string, adminId: string)
    | CreateUserCall(
        ctx: AuthContext, email: string, password: string, salt: string, roleKeys: seq<string>, id: string)
    | CreateServiceCall(ctx: AuthContext, roleKeys: seq<string>, id: string)
    | AssignRoleCall(ctx: AuthContext, id: string, roleKey: string)
    | CreateKeyCall(ctx: AuthContext, principalId: Option<string>, principalType: string, secret: string)
    | SetUserCall(ctx: AuthContext, userId: string, status: string)
    | SetTenantCall(ctx: AuthContext, tenantId: string, status: string)
    | LoginCall(slug: string, email: string, password: string, secret: string)
    | AuthenticateCall(token: string)
    | LogoutCall(token: string)
    | RevokeCall(tenantId: string, userId: string)
    | HousekeepingCall

  datatype Timed = Timed(now: int, call: Call)

  function Decide(x: Setup, s: Tables, t: Timed): Outcome {
    match t.call
    case BootstrapCall(slug, email, password, salt, tenantId, orgId, adminId) =>
      Bootstrap(x, s, slug, email, password, salt, tenantId, orgId, adminId)
    case CreateUserCall(ctx, email, password, salt, roleKeys, id) =>
      CreateUser(x, s, ctx, email, password, salt, roleKeys, id)
    case CreateServiceCall(ctx, roleKeys, id) => CreateService(x, s, ctx, roleKeys, id)
    case AssignRoleCall(ctx, id, roleKey) => AssignRole(x, s, ctx, id, roleKey)
    case CreateKeyCall(ctx, principalId, principalType, secret) =>
      CreateKey(x, s, ctx, principalId, principalType, secret)
    case SetUserCall(ctx, userId, status) => SetUser(x, s, ctx, userId, status)
    case SetTenantCall(ctx, tenantId, status) => SetTenant(s, ctx, tenantId, status)
    case LoginCall(slug, email, password, secret) => Login(x, s, slug, email, password, secret, t.now)
    case AuthenticateCall(token) => Outcome(NoWrite, Authenticate(x, s, token, t.now))
    case LogoutCall(token) => Logout(x, s, token)
    case RevokeCall(tenantId, userId) => Revoke(s, tenantId, userId)
    case HousekeepingCall => Housekeep(t.now)
  }

  function Step(x: Setup, s: Tables, t: Timed): Tables {
    Commit(s, Decide(x, s, t).write)
  }

  /** The tables after the calls, from empty ones. */
  function After(x: Setup, calls: seq<Timed>): Tables {
    if calls == [] then EMPTY
    else Step(x, After(x, calls[..|calls| - 1]), calls[|calls| - 1])
  }

  /** The clock never runs backwards, and has reached `now` at the end. */
  ghost predicate Ordered(calls: seq<Timed>, now: int) {
    calls == []
    || (calls[|calls| - 1].now <= now && Ordered(calls[..|calls| - 1], calls[|calls| - 1].now))
  }

  /** The token hash a call would store. */
  function NewHash(x: Setup, c: Call): set<string> {
    match c
    case LoginCall(_, _, _, secret) => {x.hashToken(SESSION_PREFIX + secret)}
    case CreateKeyCall(_, _, _, secret) => {x.hashToken(KEY_PREFIX + secret)}
    case _ => {}
  }

  function Issued(x: Setup, calls: seq<Timed>): set<string> {
    if calls == [] then {} else Issued(x, calls[..|calls| - 1]) + NewHash(x, calls[|calls| - 1].call)
  }

  /** Random secrets never repeat, and neither do their hashes. */
  ghost predicate FreshSecrets(x: Setup, calls: seq<Timed>) {
    calls == []
    || (FreshSecrets(x, calls[..|calls| - 1])
        && NewHash(x, calls[|calls| - 1].call) !! Issued(x, calls[..|calls| - 1]))
  }

  // ---- an invariant of the tables ---------------------------------------------------------------

  /** The principal behind a key is a row of the key's own tenant, in the table its type names. */
  predicate KeyBelongs(users: map<string, UserRow>, services: map<string, Service>, key: ApiKey) {
    if key.principalType == USER_TYPE then key.principalId in users && users[key.principalId].tenantId == key.tenantId
    else
      key.principalType == SERVICE_TYPE
      && key.principalId in services && services[key.principalId].tenantId == key.tenantId
  }

  predicate SessionBelongs(users: map<string, UserRow>, row: Session) {
    row.userId in users && users[row.userId].tenantId == row.tenantId
  }

  ghost predicate TenantsSound(tenants: map<string, TenantRow>) {
    forall t | t in tenants :: tenants[t].id == t
  }

  ghost predicate UsersSound(users: map<string, UserRow>) {
    forall u | u in users :: users[u].id == u
  }

  ghost predicate EmailsSound(users: map<string, UserRow>, emails: map<TenantKey, string>) {
    forall k | k in emails :: emails[k] in users && users[emails[k]].tenantId == k.tenantId
  }

  ghost predicate SessionsSound(users: map<string, UserRow>, sessions: map<string, Session>) {
    forall h | h in sessions :: SessionBelongs(users, sessions[h])
  }

  ghost predicate KeysSound(users: map<string, UserRow>, services: map<string, Service>, keys: map<string, ApiKey>) {
    forall h | h in keys :: KeyBelongs(users, services, keys[h])
  }

  ghost predicate Sound(s: Tables) {
    && TenantsSound(s.tenants) && UsersSound(s.users) && EmailsSound(s.users, s.emails)
    && SessionsSound(s.users, s.sessions) && KeysSound(s.users, s.services, s.keys)
  }

  /** What the write of each call looks like, and what the reply says of it. */
  ghost predicate LawfulWrite(x: Setup, s: Tables, t: Timed, w: Write, reply: Reply) {
    && (t.call.SetUserCall? ==> (reply.UserReply? <==> w.UserStatus?))
    && (t.call.SetTenantCall? ==> (reply.TenantReply? <==> w.TenantStatus?))
    && (t.call.LoginCall? ==> (reply.LoginReply? <==> w.NewSession?) && (reply.LoginReply? || w.Limits?))
    && (t.call.LogoutCall? ==> w == EndSession(x.hashToken(t.call.token)))
    && (t.call.RevokeCall? ==> w == EndSessions(t.call.tenantId, t.call.userId))
    && (t.call.HousekeepingCall? ==> w == Purge(t.now))
    && match w
       case NoWrite => true
       case NewTenant(tenant, _, admin, _) =>
         && t.call.BootstrapCall? && tenant.id !in s.tenants && admin.id !in s.users && admin.tenantId == tenant.id
         && TenantKey(admin.tenantId, admin.email) !in s.emails
       case NewUser(user, _) =>
         && t.call.CreateUserCall? && user.id !in s.users && user.tenantId in s.tenants
         && TenantKey(user.tenantId, user.email) !in s.emails
       case NewService(service, _) => t.call.CreateServiceCall? && service.id !in s.services
       case NewRole(_) => t.call.AssignRoleCall?
       case NewKey(hash, key) =>
         t.call.CreateKeyCall? && NewHash(x, t.call) == {hash} && KeyBelongs(s.users, s.services, key)
       case UserStatus(id, user) =>
         && t.call.SetUserCall? && id == t.call.userId && id in s.users
         && user == s.users[id].(active := t.call.status == ACTIVE)
         && (t.call.status == ACTIVE || t.call.status == DISABLED)
       case TenantStatus(id, tenant) =>
         && t.call.SetTenantCall? && id == t.call.tenantId && id in s.tenants
         && tenant == s.tenants[id].(active := t.call.status == ACTIVE)
       case NewSession(_, hash, session) =>
         && t.call.LoginCall? && NewHash(x, t.call) == {hash} && hash !in s.sessions && SessionBelongs(s.users, session)
         && reply.LoginReply? && session == SessionOf(reply.login)
       case Limits(_) => t.call.LoginCall?
       case EndSession(_) => t.call.LogoutCall?
       case EndSessions(_, _) => t.call.RevokeCall?
       case Purge(_) => t.call.HousekeepingCall?
  }

  function SessionOf(login: LoginResult): Session {
    Session(login.tenantId, login.userId, login.orgId, login.expiresAt, false)
  }

  lemma LoginIsLawful(x: Setup, s: Tables, t: Timed)
    requires Sound(s) && t.call.LoginCall?
    ensures var o := Decide(x, s, t); LawfulWrite(x, s, t, o.write, o.reply)
  {
  }

  lemma CallIsLawful(x: Setup, s: Tables, t: Timed)
    requires Sound(s)
    ensures var o := Decide(x, s, t); LawfulWrite(x, s, t, o.write, o.reply)
  {
    hide Decide, LawfulWrite, Sound;
    match t.call {
      case LoginCall(_, _, _, _) => LoginIsLawful(x, s, t);
      case BootstrapCall(_, _, _, _, _, _, _) => AccountIsLawful(x, s, t);
      case CreateUserCall(_, _, _, _, _, _) => AccountIsLawful(x, s, t);
      case CreateKeyCall(_, _, _, _) => KeyIsLawful(x, s, t);
      case _ => OthersAreLawful(x, s, t);
    }
  }

  lemma AccountIsLawful(x: Setup, s: Tables, t: Timed)
    requires Sound(s) && (t.call.BootstrapCall? || t.call.CreateUserCall?)
    ensures var o := Decide(x, s, t); LawfulWrite(x, s, t, o.write, o.reply)
  {
    hide Sound;
  }

  lemma KeyIsLawful(x: Setup, s: Tables, t: Timed)
    requires Sound(s) && t.call.CreateKeyCall?
    ensures var o := Decide(x, s, t); LawfulWrite(x, s, t, o.write, o.reply)
  {
  }

  lemma OthersAreLawful(x: Setup, s: Tables, t: Timed)
    requires Sound(s) && !t.call.BootstrapCall? && !t.call.CreateUserCall? && !t.call.CreateKeyCall?
    requires !t.call.LoginCall?
    ensures var o := Decide(x, s, t); LawfulWrite(x, s, t, o.write, o.reply)
  {
  }

  /** No write moves a principal to another tenant or takes one away. */
  lemma PrincipalsStay(x: Setup, s: Tables, t: Timed, w: Write, reply: Reply)
    requires LawfulWrite(x, s, t, w, reply)
    ensures forall u | u in s.users :: u in Commit(s, w).users && Commit(s, w).users[u].tenantId == s.users[u].tenantId
    ensures forall v | v in s.services :: v in Commit(s, w).services && Commit(s, w).services[v] == s.services[v]
  {
  }

  lemma SessionsStaySound(x: Setup, s: Tables, t: Timed, w: Write, reply: Reply)
    requires SessionsSound(s.users, s.sessions) && LawfulWrite(x, s, t, w, reply)
    ensures SessionsSound(s.users, SessionsAfter(s.sessions, w))
  {
  }

  lemma UsersStaySound(x: Setup, s: Tables, t: Timed, w: Write, reply: Reply)
    requires UsersSound(s.users) && EmailsSound(s.users, s.emails) && LawfulWrite(x, s, t, w, reply)
    ensures UsersSound(Commit(s, w).users) && EmailsSound(Commit(s, w).users, Commit(s, w).emails)
  {
  }

  lemma WriteKeepsSound(x: Setup, s: Tables, t: Timed, w: Write, reply: Reply)
    requires Sound(s) && LawfulWrite(x, s, t, w, reply)
    ensures Sound(Commit(s, w))
  {
    PrincipalsStay(x, s, t, w, reply);
    SessionsStaySound(x, s, t, w, reply);
    UsersStaySound(x, s, t, w, reply);
  }

  lemma {:induction false} RunIsSound(x: Setup, calls: seq<Timed>)
    ensures Sound(After(x, calls))
  {
    if calls != [] {
      RunIsSound(x, calls[..|calls| - 1]);
      var s, t := After(x, calls[..|calls| - 1]), calls[|calls| - 1];
      CallIsLawful(x, s, t);
      WriteKeepsSound(x, s, t, Decide(x, s, t).write, Decide(x, s, t).reply);
    }
  }

  /** Every stored API key's principal is a row of the key's own tenant, in the right table. */
  lemma ApiKeysBelongToTheirTenant(x: Setup, calls: seq<Timed>, hash: string)
    requires hash in After(x, calls).keys
    ensures var s := After(x, calls); KeyBelongs(s.users, s.services, s.keys[hash])
  {
    RunIsSound(x, calls);
  }

  /** Whoever a token authenticates is an active row of the tenant the context names, that tenant
      is active, and the roles are exactly those assigned there; keys never carry platform rights. */
  lemma AuthenticatedActorsAreGenuine(x: Setup, calls: seq<Timed>, token: string, now: int)
    ensures var s, r := After(x, calls), Authenticate(x, After(x, calls), token, now);
            r.ActorReply? ==>
              && TenantActive(s, r.actor.tenantId)
              && (r.actor.actorType == User || r.actor.actorType == ServiceAccount)
              && (r.actor.actorType == User ==>
                    r.actor.actorId in s.users && s.users[r.actor.actorId].active
                    && s.users[r.actor.actorId].tenantId == r.actor.tenantId)
              && (r.actor.actorType == ServiceAccount ==>
                    r.actor.actorId in s.services && s.services[r.actor.actorId].active
                    && s.services[r.actor.actorId].tenantId == r.actor.tenantId)
              && (forall k ::
                    k in r.actor.roleKeys <==> Assignment(r.actor.tenantId, r.actor.actorId, k) in s.assignments)
              && (r.actor.isPlatformAdmin ==> r.actor.actorType == User && s.users[r.actor.actorId].platformAdmin
                                              && !HasPrefix(token, KEY_PREFIX))
  {
    RunIsSound(x, calls);
  }

  // ---- the history of a session ---------------------------------------------------------------------

  /** What a call does to the session a token hash holds, going by its reply. Housekeeping does
      nothing here. */
  function Held'(x: Setup, t: Timed, reply: Reply, hash: string, held: Option<Session>): Option<Session> {
    match t.call
    case LoginCall(_, _, _, secret) =>
      if reply.LoginReply? && x.hashToken(SESSION_PREFIX + secret) == hash
      then Some(SessionOf(reply.login))
      else held
    case LogoutCall(token) => if x.hashToken(token) == hash then None else held
    case SetUserCall(_, userId, status) =>
      if held.Some? && held.value.userId == userId && reply.UserReply? && status == DISABLED then None else held
    case RevokeCall(tenantId, userId) =>
      if held.Some? && held.value.userId == userId && held.value.tenantId == tenantId then None else held
    case _ => held
  }

  /** The session a token hash was last given and has not lost since. */
  function Held(x: Setup, calls: seq<Timed>, hash: string): Option<Session> {
    if calls == [] then None
    else
      var init, last := calls[..|calls| - 1], calls[|calls| - 1];
      Held'(x, last, Decide(x, After(x, init), last).reply, hash, Held(x, init, hash))
  }

  function Unexpired(held: Option<Session>, now: int): Option<Session> {
    if held.Some? && now < held.value.expiresAt then held else None
  }

  /** The same in terms of the write. */
  function HeldAfter(w: Write, hash: string, held: Option<Session>): Option<Session> {
    match w
    case NewSession(_, h, session) => if h == hash then Some(session) else held
    case EndSession(h) => if h == hash then None else held
    case UserStatus(id, user) => if held.Some? && held.value.userId == id && !user.active then None else held
    case EndSessions(tenantId, userId) =>
      if held.Some? && held.value.userId == userId && held.value.tenantId == tenantId then None else held
    case _ => held
  }

  lemma RepliesTellTheWrite(x: Setup, s: Tables, t: Timed, w: Write, reply: Reply, hash: string, held: Option<Session>)
    requires LawfulWrite(x, s, t, w, reply)
    ensures HeldAfter(w, hash, held) == Held'(x, t, reply, hash, held)
  {
  }

  lemma WriteHolds(s: Tables, w: Write, hash: string, held: Option<Session>, now: int)
    requires Usable(s.sessions, hash, now) == Unexpired(held, now)
    requires w.Purge? ==> w.now <= now
    requires w.NewSession? ==> !w.session.revoked
    requires w.UserStatus? && hash in s.sessions && s.sessions[hash].userId == w.id ==>
               s.sessions[hash].tenantId == w.user.tenantId
    ensures Usable(SessionsAfter(s.sessions, w), hash, now) == Unexpired(HeldAfter(w, hash, held), now)
  {
  }

  lemma LawfulWriteHolds(
    x: Setup, s: Tables, t: Timed, w: Write, reply: Reply, hash: string, held: Option<Session>, now: int)
    requires SessionsSound(s.users, s.sessions) && LawfulWrite(x, s, t, w, reply) && t.now <= now
    requires Usable(s.sessions, hash, now) == Unexpired(held, now)
    ensures Usable(Commit(s, w).sessions, hash, now) == Unexpired(Held'(x, t, reply, hash, held), now)
  {
    hide Usable, Unexpired, HeldAfter, Held', SessionsAfter;
    if w.UserStatus? && hash in s.sessions {
      assert SessionBelongs(s.users, s.sessions[hash]);
    }
    RepliesTellTheWrite(x, s, t, w, reply, hash, held);
    WriteHolds(s, w, hash, held, now);
  }

  lemma {:induction false} SessionsAreTheirHistory(x: Setup, calls: seq<Timed>, hash: string, now: int)
    requires Ordered(calls, now)
    ensures Usable(After(x, calls).sessions, hash, now) == Unexpired(Held(x, calls, hash), now)
  {
    hide Decide, Commit, Sound, LawfulWrite;
    if calls != [] {
      var init, last := calls[..|calls| - 1], calls[|calls| - 1];
      OrderedLater(init, last.now, now);
      SessionsAreTheirHistory(x, init, hash, now);
      RunIsSound(x, init);
      var s := After(x, init);
      CallIsLawful(x, s, last);
      LawfulWriteHolds(x, s, last, Decide(x, s, last).write, Decide(x, s, last).reply, hash, Held(x, init, hash), now);
    }
  }

  lemma OrderedLater(calls: seq<Timed>, now: int, later: int)
    requires Ordered(calls, now) && now <= later
    ensures Ordered(calls, later)
  {
  }

  /** A session token is accepted exactly when a login issued it, it has not expired, nothing has
      ended it since (logout, revocation, disabling its user), and its user and tenant are active.
      Whether housekeeping ran plays no part. */
  lemma SessionTokensWorkExactlyWhileHeld(x: Setup, calls: seq<Timed>, token: string, now: int)
    requires Ordered(calls, now) && !HasPrefix(token, KEY_PREFIX)
    ensures var s, held := After(x, calls), Held(x, calls, x.hashToken(token));
            Authenticate(x, s, token, now).ActorReply? <==>
              && held.Some? && now < held.value.expiresAt
              && TenantActive(s, held.value.tenantId)
              && held.value.userId in s.users && s.users[held.value.userId].active
  {
    SessionsAreTheirHistory(x, calls, x.hashToken(token), now);
  }

  // ---- the history of an API key -----------------------------------------------------------------------

  /** The key a token hash was created for. No call takes a key away again. */
  function Granted(x: Setup, calls: seq<Timed>, hash: string): Option<ApiKey> {
    if calls == [] then None
    else
      var init, last := calls[..|calls| - 1], calls[|calls| - 1];
      match last.call
      case CreateKeyCall(ctx, principalId, principalType, secret) =>
        if Decide(x, After(x, init), last).reply.KeyReply? && x.hashToken(KEY_PREFIX + secret) == hash
        then Some(ApiKey(ctx.tenantId, ctx.orgId, principalType,
                         if principalId.Some? then principalId.value else ctx.actorId, true))
        else Granted(x, init, hash)
      case _ => Granted(x, init, hash)
  }

  function KeyOf(keys: map<string, ApiKey>, hash: string): Option<ApiKey> {
    if hash in keys then Some(keys[hash]) else None
  }

  lemma CallGrants(x: Setup, s: Tables, t: Timed, hash: string)
    ensures KeyOf(Step(x, s, t).keys, hash)
            == match t.call
               case CreateKeyCall(ctx, principalId, principalType, secret) =>
                 if Decide(x, s, t).reply.KeyReply? && x.hashToken(KEY_PREFIX + secret) == hash
                 then Some(ApiKey(ctx.tenantId, ctx.orgId, principalType,
                                  if principalId.Some? then principalId.value else ctx.actorId, true))
                 else KeyOf(s.keys, hash)
               case _ => KeyOf(s.keys, hash)
  {
  }

  lemma {:induction false} KeysAreTheirHistory(x: Setup, calls: seq<Timed>, hash: string)
    ensures KeyOf(After(x, calls).keys, hash) == Granted(x, calls, hash)
  {
    hide Decide, Commit;
    if calls != [] {
      KeysAreTheirHistory(x, calls[..|calls| - 1], hash);
      CallGrants(x, After(x, calls[..|calls| - 1]), calls[|calls| - 1], hash);
    }
  }

  /** An API key is accepted exactly when it was created and both its tenant and its principal,
      looked up in that tenant, are active now: disabling suspends it and re-activation revives it. */
  lemma ApiKeysWorkExactlyWhilePrincipalsDo(x: Setup, calls: seq<Timed>, token: string, now: int)
    requires HasPrefix(token, KEY_PREFIX)
    ensures var s, key := After(x, calls), Granted(x, calls, x.hashToken(token));
            Authenticate(x, s, token, now).ActorReply? <==>
              && key.Some? && key.value.active && TenantActive(s, key.value.tenantId)
              && PrincipalActive(s, key.value.tenantId, key.value.principalType, key.value.principalId)
  {
    KeysAreTheirHistory(x, calls, x.hashToken(token));
  }

  // ---- disabling a user ---------------------------------------------------------------------------------

  lemma {:induction false} SessionsWereIssued(x: Setup, calls: seq<Timed>)
    ensures After(x, calls).sessions.Keys <= Issued(x, calls)
  {
    if calls != [] {
      SessionsWereIssued(x, calls[..|calls| - 1]);
      RunIsSound(x, calls[..|calls| - 1]);
      StepSessions(x, After(x, calls[..|calls| - 1]), calls[|calls| - 1]);
    }
  }

  /** Only a login adds a session, under its new hash; nothing clears a revocation or moves a
      session to another user. */
  lemma WriteSessions(x: Setup, s: Tables, t: Timed, w: Write, reply: Reply)
    requires LawfulWrite(x, s, t, w, reply)
    ensures Commit(s, w).sessions.Keys <= s.sessions.Keys + NewHash(x, t.call)
    ensures forall h | h in Commit(s, w).sessions && h !in NewHash(x, t.call) ::
              && h in s.sessions && Commit(s, w).sessions[h].userId == s.sessions[h].userId
              && (s.sessions[h].revoked ==> Commit(s, w).sessions[h].revoked)
  {
  }

  lemma StepSessions(x: Setup, s: Tables, t: Timed)
    requires Sound(s)
    ensures Step(x, s, t).sessions.Keys <= s.sessions.Keys + NewHash(x, t.call)
    ensures forall h | h in Step(x, s, t).sessions && h !in NewHash(x, t.call) ::
              && h in s.sessions && Step(x, s, t).sessions[h].userId == s.sessions[h].userId
              && (s.sessions[h].revoked ==> Step(x, s, t).sessions[h].revoked)
  {
    hide Decide, Commit, Sound, LawfulWrite;
    CallIsLawful(x, s, t);
    WriteSessions(x, s, t, Decide(x, s, t).write, Decide(x, s, t).reply);
  }

  lemma {:induction false} IssuedGrows(x: Setup, calls: seq<Timed>, n: nat)
    requires n <= |calls|
    ensures Issued(x, calls[..n]) <= Issued(x, calls)
  {
    if n < |calls| {
      assert calls[..|calls| - 1][..n] == calls[..n];
      IssuedGrows(x, calls[..|calls| - 1], n);
    } else {
      assert calls[..n] == calls;
    }
  }

  /** Call `i` disabled the user. */
  ghost predicate DisabledAt(x: Setup, calls: seq<Timed>, i: nat, userId: string) {
    && i < |calls|
    && calls[i].call.SetUserCall? && calls[i].call.userId == userId && calls[i].call.status == DISABLED
    && Decide(x, After(x, calls[..i]), calls[i]).reply.UserReply?
  }

  ghost predicate AllRevoked(s: Tables, hashes: set<string>, userId: string) {
    forall h | h in hashes && h in s.sessions && s.sessions[h].userId == userId :: s.sessions[h].revoked
  }

  lemma AfterNext(x: Setup, calls: seq<Timed>, i: nat)
    requires i < |calls|
    ensures After(x, calls[..i + 1]) == Step(x, After(x, calls[..i]), calls[i])
    ensures Issued(x, calls[..i + 1]) == Issued(x, calls[..i]) + NewHash(x, calls[i].call)
  {
    assert calls[..i + 1][..i] == calls[..i];
  }

  lemma {:induction false} FreshPrefix(x: Setup, calls: seq<Timed>, n: nat)
    requires FreshSecrets(x, calls) && n < |calls|
    ensures FreshSecrets(x, calls[..n]) && NewHash(x, calls[n].call) !! Issued(x, calls[..n])
  {
    if n < |calls| - 1 {
      assert calls[..|calls| - 1][..n] == calls[..n];
      FreshPrefix(x, calls[..|calls| - 1], n);
    }
  }

  lemma DisablingRevokes(x: Setup, s: Tables, t: Timed, userId: string, hashes: set<string>)
    requires Sound(s) && t.call.SetUserCall? && t.call.userId == userId && t.call.status == DISABLED
    requires Decide(x, s, t).reply.UserReply?
    ensures AllRevoked(Step(x, s, t), hashes, userId)
    ensures userId in Step(x, s, t).users && !Step(x, s, t).users[userId].active
  {
  }

  lemma RevocationsStay(x: Setup, s: Tables, t: Timed, userId: string, hashes: set<string>)
    requires Sound(s) && AllRevoked(s, hashes, userId) && NewHash(x, t.call) !! hashes
    ensures AllRevoked(Step(x, s, t), hashes, userId)
  {
    StepSessions(x, s, t);
  }

  lemma {:induction false} OldSessionsStayRevoked(x: Setup, calls: seq<Timed>, i: nat, userId: string, n: nat)
    requires FreshSecrets(x, calls) && DisabledAt(x, calls, i, userId) && i < n <= |calls|
    ensures AllRevoked(After(x, calls[..n]), Issued(x, calls[..i]), userId)
    decreases n
  {
    hide Step, Sound, NewHash, Issued;
    AfterNext(x, calls, n - 1);
    RunIsSound(x, calls[..n - 1]);
    if n == i + 1 {
      DisablingRevokes(x, After(x, calls[..i]), calls[i], userId, Issued(x, calls[..i]));
    } else {
      OldSessionsStayRevoked(x, calls, i, userId, n - 1);
      FreshPrefix(x, calls, n - 1);
      assert calls[..n - 1][..i] == calls[..i];
      IssuedGrows(x, calls[..n - 1], i);
      RevocationsStay(x, After(x, calls[..n - 1]), calls[n - 1], userId, Issued(x, calls[..i]));
    }
  }

  /** Once a user has been disabled, no session token issued before then authenticates as that
      user again, whatever happens later; re-activation does not bring one back. */
  lemma DisabledSessionsStayDead(x: Setup, calls: seq<Timed>, i: nat, userId: string, token: string, now: int)
    requires FreshSecrets(x, calls) && DisabledAt(x, calls, i, userId)
    requires x.hashToken(token) in Issued(x, calls[..i]) && !HasPrefix(token, KEY_PREFIX)
    ensures var r := Authenticate(x, After(x, calls), token, now);
            !(r.ActorReply? && r.actor.actorId == userId)
  {
    OldSessionsStayRevoked(x, calls, i, userId, |calls|);
    assert calls[..|calls|] == calls;
  }

  /** Does the call switch the user back on? */
  predicate Reactivates(c: Call, userId: string) {
    c.SetUserCall? && c.userId == userId && c.status == ACTIVE
  }

  lemma WriteKeepsUserOff(x: Setup, s: Tables, t: Timed, w: Write, reply: Reply, userId: string)
    requires LawfulWrite(x, s, t, w, reply)
    requires userId in s.users && !s.users[userId].active && !Reactivates(t.call, userId)
    ensures userId in Commit(s, w).users && !Commit(s, w).users[userId].active
  {
  }

  lemma {:induction false} UserStaysOff(x: Setup, calls: seq<Timed>, i: nat, userId: string, n: nat)
    requires DisabledAt(x, calls, i, userId) && i < n <= |calls|
    requires forall j | i < j < n :: !Reactivates(calls[j].call, userId)
    ensures var s := After(x, calls[..n]); userId in s.users && !s.users[userId].active
    decreases n
  {
    hide Decide, Commit, Sound, LawfulWrite;
    AfterNext(x, calls, n - 1);
    RunIsSound(x, calls[..n - 1]);
    var s, t := After(x, calls[..n - 1]), calls[n - 1];
    if n == i + 1 {
      DisablingRevokes(x, s, t, userId, {});
    } else {
      UserStaysOff(x, calls, i, userId, n - 1);
      CallIsLawful(x, s, t);
      WriteKeepsUserOff(x, s, t, Decide(x, s, t).write, Decide(x, s, t).reply, userId);
    }
  }

  /** Until a disabled user is re-activated, no token at all authenticates as that user, API keys
      included, and no login succeeds. */
  lemma DisabledUsersAreShutOut(
    x: Setup, calls: seq<Timed>, i: nat, userId: string, token: string, slug: string, email: string, password: string,
    secret: string, now: int)
    requires DisabledAt(x, calls, i, userId)
    requires forall j | i < j < |calls| :: !Reactivates(calls[j].call, userId)
    ensures var r := Authenticate(x, After(x, calls), token, now);
            !(r.ActorReply? && r.actor.actorType == User && r.actor.actorId == userId)
    ensures var r := Login(x, After(x, calls), slug, email, password, secret, now).reply;
            !(r.LoginReply? && r.login.userId == userId)
  {
    UserStaysOff(x, calls, i, userId, |calls|);
    assert calls[..|calls|] == calls;
    RunIsSound(x, calls);
  }

  // ---- suspending a tenant -------------------------------------------------------------------------------

  ghost predicate SuspendedAt(x: Setup, calls: seq<Timed>, i: nat, tenantId: string) {
    && i < |calls|
    && calls[i].call.SetTenantCall? && calls[i].call.tenantId == tenantId && calls[i].call.status == SUSPENDED
    && Decide(x, After(x, calls[..i]), calls[i]).reply.TenantReply?
  }

  predicate Resumes(c: Call, tenantId: string) {
    c.SetTenantCall? && c.tenantId == tenantId && c.status == ACTIVE
  }

  lemma SuspendingSuspends(x: Setup, s: Tables, t: Timed)
    requires t.call.SetTenantCall? && t.call.status == SUSPENDED && Decide(x, s, t).reply.TenantReply?
    ensures t.call.tenantId in Step(x, s, t).tenants && !Step(x, s, t).tenants[t.call.tenantId].active
  {
  }

  lemma WriteKeepsTenantOff(x: Setup, s: Tables, t: Timed, w: Write, reply: Reply, tenantId: string)
    requires LawfulWrite(x, s, t, w, reply)
    requires tenantId in s.tenants && !s.tenants[tenantId].active && !Resumes(t.call, tenantId)
    ensures tenantId in Commit(s, w).tenants && !Commit(s, w).tenants[tenantId].active
  {
  }

  lemma {:induction false} TenantStaysOff(x: Setup, calls: seq<Timed>, i: nat, tenantId: string, n: nat)
    requires SuspendedAt(x, calls, i, tenantId) && i < n <= |calls|
    requires forall j | i < j < n :: !Resumes(calls[j].call, tenantId)
    ensures var s := After(x, calls[..n]); tenantId in s.tenants && !s.tenants[tenantId].active
    decreases n
  {
    hide Decide, Commit, Sound, LawfulWrite;
    AfterNext(x, calls, n - 1);
    RunIsSound(x, calls[..n - 1]);
    var s, t := After(x, calls[..n - 1]), calls[n - 1];
    if n == i + 1 {
      SuspendingSuspends(x, s, t);
    } else {
      TenantStaysOff(x, calls, i, tenantId, n - 1);
      CallIsLawful(x, s, t);
      WriteKeepsTenantOff(x, s, t, Decide(x, s, t).write, Decide(x, s, t).reply, tenantId);
    }
  }

  /** While a tenant is suspended none of its credentials work: no session, no API key, no login. */
  lemma SuspendedTenantsAuthenticateNothing(
    x: Setup, calls: seq<Timed>, i: nat, tenantId: string, token: string, slug: string, email: string,
    password: string, secret: string, now: int)
    requires SuspendedAt(x, calls, i, tenantId)
    requires forall j | i < j < |calls| :: !Resumes(calls[j].call, tenantId)
    ensures var r := Authenticate(x, After(x, calls), token, now);
            !(r.ActorReply? && r.actor.tenantId == tenantId)
    ensures var r := Login(x, After(x, calls), slug, email, password, secret, now).reply;
            !(r.LoginReply? && r.login.tenantId == tenantId)
  {
    TenantStaysOff(x, calls, i, tenantId, |calls|);
    assert calls[..|calls|] == calls;
    RunIsSound(x, calls);
  }

  // ---- housekeeping -----------------------------------------------------------------------------------------

  function WithoutHousekeeping(calls: seq<Timed>): seq<Timed> {
    if calls == [] then []
    else
      var last := calls[|calls| - 1];
      WithoutHousekeeping(calls[..|calls| - 1]) + (if last.call.HousekeepingCall? then [] else [last])
  }

  ghost predicate SameUsable(a: map<string, Session>, b: map<string, Session>, now: int) {
    forall later, h | now <= later :: Usable(a, h, later) == Usable(b, h, later)
  }

  /** Two tables that agree on everything an identity call can see from `now` on. */
  ghost predicate Alike(a: Tables, b: Tables, now: int) {
    && a.(sessions := b.sessions, limits := b.limits) == b
    && SameUsable(a.sessions, b.sessions, now)
    && L.SameLive(a.limits, b.limits, now)
  }

  /** The same write, up to limiter tables that count the same. */
  ghost predicate AlikeWrites(w: Write, w': Write, now: int) {
    match w
    case Limits(m) => w'.Limits? && L.SameLive(m, w'.limits, now)
    case NewSession(m, _, _) => w'.NewSession? && w' == w.(limits := w'.limits) && L.SameLive(m, w'.limits, now)
    case _ => w' == w && !w.Purge?
  }

  lemma PurgeIsUnseen(a: Tables, b: Tables, now: int)
    requires Alike(a, b, now)
    ensures Alike(Commit(a, Purge(now)), b, now)
  {
  }

  lemma SessionsStayAlike(a: map<string, Session>, b: map<string, Session>, w: Write, w': Write, now: int)
    requires SameUsable(a, b, now) && AlikeWrites(w, w', now)
    ensures SameUsable(SessionsAfter(a, w), SessionsAfter(b, w'), now)
  {
    forall later, h | now <= later
      ensures Usable(SessionsAfter(a, w), h, later) == Usable(SessionsAfter(b, w'), h, later)
    {
      assert Usable(a, h, later) == Usable(b, h, later);
    }
  }

  lemma CommitAlike(a: Tables, b: Tables, w: Write, w': Write, now: int)
    requires Alike(a, b, now) && AlikeWrites(w, w', now)
    ensures Alike(Commit(a, w), Commit(b, w'), now)
  {
    SessionsStayAlike(a.sessions, b.sessions, w, w', now);
  }

  lemma SameIdentity(x: Setup, a: Tables, b: Tables, slug: string, email: string, password: string)
    requires a.(sessions := b.sessions, limits := b.limits) == b
    ensures Identified(x, a, slug, email, password) == Identified(x, b, slug, email, password)
    ensures TenantBySlug(a, slug) == TenantBySlug(b, slug)
  {
  }

  lemma LoginsAreAlike(x: Setup, a: Tables, b: Tables, t: Timed)
    requires Alike(a, b, t.now) && t.call.LoginCall?
    requires NewHash(x, t.call) !! a.sessions.Keys && NewHash(x, t.call) !! b.sessions.Keys
    ensures Decide(x, a, t).reply == Decide(x, b, t).reply
    ensures AlikeWrites(Decide(x, a, t).write, Decide(x, b, t).write, t.now)
  {
    hide L.Apply, L.AnswerTo, L.SameLive, SameUsable, Identified, TenantBySlug;
    SameIdentity(x, a, b, x.trim(t.call.slug), x.normalize(t.call.email), t.call.password);
    var key := LimiterKey(x.trim(t.call.slug), x.normalize(t.call.email));
    var check := L.Timed(t.now, L.IsLocked(key));
    var a', b' := L.Apply(a.limits, check), L.Apply(b.limits, check);
    L.SameLiveAnswers(a.limits, b.limits, check);
    L.SameLiveAnswers(a', b', L.Timed(t.now, L.RecordFailure(key)));
    L.SameLiveAnswers(a', b', L.Timed(t.now, L.Reset(key)));
    assert x.hashToken(SESSION_PREFIX + t.call.secret) in NewHash(x, t.call);
  }

  /** Calls whose replies count sessions see the table's dead rows too. */
  predicate CountsRows(c: Call) {
    c.LogoutCall? || c.RevokeCall?
  }

  lemma AuthenticationsAreAlike(x: Setup, a: Tables, b: Tables, t: Timed)
    requires Alike(a, b, t.now) && t.call.AuthenticateCall?
    ensures Decide(x, a, t) == Decide(x, b, t)
  {
  }

  /** The calls that only administer rows decide without looking at sessions or the limiter. */
  lemma AdministrationIsAlike(x: Setup, a: Tables, b: Tables, t: Timed)
    requires a.(sessions := b.sessions, limits := b.limits) == b
    requires !t.call.LoginCall? && !t.call.AuthenticateCall? && !t.call.HousekeepingCall?
    ensures !CountsRows(t.call) ==> Decide(x, a, t).reply == Decide(x, b, t).reply
    ensures var w := Decide(x, a, t).write;
            w == Decide(x, b, t).write && !w.Limits? && !w.NewSession? && !w.Purge?
  {
    hide Bootstrap, CreateUser, CreateService, AssignRole, CreateKey;
    match t.call {
      case BootstrapCall(slug, email, password, salt, tenantId, orgId, adminId) =>
        BootstrapIsAlike(x, a, b, slug, email, password, salt, tenantId, orgId, adminId);
      case CreateUserCall(ctx, email, password, salt, roleKeys, id) =>
        CreateUserIsAlike(x, a, b, ctx, email, password, salt, roleKeys, id);
      case CreateServiceCall(ctx, roleKeys, id) => CreateServiceIsAlike(x, a, b, ctx, roleKeys, id);
      case AssignRoleCall(ctx, id, roleKey) => AssignRoleIsAlike(x, a, b, ctx, id, roleKey);
      case CreateKeyCall(ctx, id, principalType, secret) => CreateKeyIsAlike(x, a, b, ctx, id, principalType, secret);
      case _ =>
    }
  }

  predicate Administers(w: Write) {
    !w.Limits? && !w.NewSession? && !w.Purge?
  }

  lemma BootstrapIsAlike(
    x: Setup, a: Tables, b: Tables, slug: string, email: string, password: string, salt: string, tenantId: string,
    orgId: string, adminId: string)
    requires a.(sessions := b.sessions, limits := b.limits) == b
    ensures var o := Bootstrap(x, a, slug, email, password, salt, tenantId, orgId, adminId);
            o == Bootstrap(x, b, slug, email, password, salt, tenantId, orgId, adminId) && Administers(o.write)
  {
  }

  lemma CreateUserIsAlike(
    x: Setup, a: Tables, b: Tables, ctx: AuthContext, email: string, password: string, salt: string,
    roleKeys: seq<string>, id: string)
    requires a.(sessions := b.sessions, limits := b.limits) == b
    ensures var o := CreateUser(x, a, ctx, email, password, salt, roleKeys, id);
            o == CreateUser(x, b, ctx, email, password, salt, roleKeys, id) && Administers(o.write)
  {
  }

  lemma CreateServiceIsAlike(x: Setup, a: Tables, b: Tables, ctx: AuthContext, roleKeys: seq<string>, id: string)
    requires a.(sessions := b.sessions, limits := b.limits) == b
    ensures var o := CreateService(x, a, ctx, roleKeys, id);
            o == CreateService(x, b, ctx, roleKeys, id) && Administers(o.write)
  {
  }

  lemma AssignRoleIsAlike(x: Setup, a: Tables, b: Tables, ctx: AuthContext, id: string, roleKey: string)
    requires a.(sessions := b.sessions, limits := b.limits) == b
    ensures var o := AssignRole(x, a, ctx, id, roleKey);
            o == AssignRole(x, b, ctx, id, roleKey) && Administers(o.write)
  {
  }

  lemma CreateKeyIsAlike(
    x: Setup, a: Tables, b: Tables, ctx: AuthContext, id: Option<string>, principalType: string, secret: string)
    requires a.(sessions := b.sessions, limits := b.limits) == b
    ensures var o := CreateKey(x, a, ctx, id, principalType, secret);
            o == CreateKey(x, b, ctx, id, principalType, secret) && Administers(o.write)
  {
  }

  lemma DecisionsAreAlike(x: Setup, a: Tables, b: Tables, t: Timed)
    requires Alike(a, b, t.now) && !t.call.HousekeepingCall?
    requires NewHash(x, t.call) !! a.sessions.Keys && NewHash(x, t.call) !! b.sessions.Keys
    ensures !CountsRows(t.call) ==> Decide(x, a, t).reply == Decide(x, b, t).reply
    ensures AlikeWrites(Decide(x, a, t).write, Decide(x, b, t).write, t.now)
  {
    if t.call.LoginCall? {
      LoginsAreAlike(x, a, b, t);
    } else if t.call.AuthenticateCall? {
      AuthenticationsAreAlike(x, a, b, t);
    } else {
      AdministrationIsAlike(x, a, b, t);
    }
  }

  lemma HousekeepingPurges(x: Setup, s: Tables, t: Timed)
    requires t.call.HousekeepingCall?
    ensures Step(x, s, t) == Commit(s, Purge(t.now))
  {
  }

  lemma {:induction false} RunsAreAlike(x: Setup, calls: seq<Timed>, now: int)
    requires Ordered(calls, now) && FreshSecrets(x, calls)
    ensures Alike(After(x, calls), After(x, WithoutHousekeeping(calls)), now)
    ensures Issued(x, WithoutHousekeeping(calls)) == Issued(x, calls)
  {
    hide Decide, Commit, Sound, AlikeWrites;
    if calls != [] {
      var init, last := calls[..|calls| - 1], calls[|calls| - 1];
      RunsAreAlike(x, init, last.now);
      var kept := WithoutHousekeeping(init);
      if last.call.HousekeepingCall? {
        HousekeepingPurges(x, After(x, init), last);
        PurgeIsUnseen(After(x, init), After(x, kept), last.now);
        assert WithoutHousekeeping(calls) == kept;
      } else {
        assert (kept + [last])[..|kept|] == kept;
        SessionsWereIssued(x, init);
        SessionsWereIssued(x, kept);
        var a, b := After(x, init), After(x, kept);
        DecisionsAreAlike(x, a, b, last);
        CommitAlike(a, b, Decide(x, a, last).write, Decide(x, b, last).write, last.now);
      }
    }
  }

  /** Purging sessions and limiter windows is unobservable: every later login, authentication and
      administrative call replies as it would had housekeeping never run. */
  lemma HousekeepingIsUnobservable(x: Setup, calls: seq<Timed>, asked: Timed)
    requires Ordered(calls, asked.now) && FreshSecrets(x, calls + [asked])
    requires !CountsRows(asked.call) && !asked.call.HousekeepingCall?
    ensures Decide(x, After(x, calls), asked).reply
            == Decide(x, After(x, WithoutHousekeeping(calls)), asked).reply
  {
    hide Decide, Commit, Sound, AlikeWrites;
    assert (calls + [asked])[..|calls|] == calls;
    RunsAreAlike(x, calls, asked.now);
    SessionsWereIssued(x, calls);
    SessionsWereIssued(x, WithoutHousekeeping(calls));
    DecisionsAreAlike(x, After(x, calls), After(x, WithoutHousekeeping(calls)), asked);
  }

  // ---- what does see the purges ---------------------------------------------------------------

  /** Among the calls is a purge made at the moment or after it. */
  predicate PurgedSince(calls: seq<Timed>, moment: int) {
    exists c | c in calls :: c.call.HousekeepingCall? && moment <= c.now
  }

  /** The first sessions are the second ones less revoked ones and all that had expired by a purge. */
  ghost predicate OnlyPurged(a: map<string, Session>, b: map<string, Session>, calls: seq<Timed>) {
    && (forall h | h in a :: h in b && b[h] == a[h] && (!a[h].revoked ==> !PurgedSince(calls, a[h].expiresAt)))
    && (forall h | h in b && h !in a :: b[h].revoked || PurgedSince(calls, b[h].expiresAt))
  }

  lemma {:induction false} CallsArePast(calls: seq<Timed>, now: int)
    requires Ordered(calls, now)
    ensures forall c | c in calls :: c.now <= now
  {
    if calls != [] {
      var init, last := calls[..|calls| - 1], calls[|calls| - 1];
      CallsArePast(init, last.now);
      assert calls == init + [last];
    }
  }

  lemma NewSessionsLast(x: Setup, s: Tables, t: Timed)
    ensures var w := Decide(x, s, t).write; w.NewSession? ==> w.session.expiresAt == t.now + x.sessionTtl
  {
  }

  lemma PurgedAfterOther(calls: seq<Timed>, last: Timed, moment: int)
    requires !last.call.HousekeepingCall?
    ensures PurgedSince(calls + [last], moment) == PurgedSince(calls, moment)
  {
  }

  lemma OnlyPurgedAfterOther(
    a: map<string, Session>, b: map<string, Session>, calls: seq<Timed>, last: Timed, w: Write, w': Write)
    requires OnlyPurged(a, b, calls) && !last.call.HousekeepingCall? && AlikeWrites(w, w', last.now)
    requires w.NewSession? ==> !PurgedSince(calls, w.session.expiresAt)
    ensures OnlyPurged(SessionsAfter(a, w), SessionsAfter(b, w'), calls + [last])
  {
    hide PurgedSince, L.SameLive;
    forall moment ensures PurgedSince(calls + [last], moment) == PurgedSince(calls, moment) {
      PurgedAfterOther(calls, last, moment);
    }
  }

  lemma OnlyPurgedAfterPurge(a: map<string, Session>, b: map<string, Session>, calls: seq<Timed>, last: Timed)
    requires OnlyPurged(a, b, calls) && last.call.HousekeepingCall?
    ensures OnlyPurged(a - Dead(a, last.now), b, calls + [last])
  {
    forall h | h in b && h !in a - Dead(a, last.now)
      ensures b[h].revoked || PurgedSince(calls + [last], b[h].expiresAt)
    {
      assert last in calls + [last];
    }
  }

  /** Housekeeping takes away, besides revoked sessions, exactly those that had expired by a purge. */
  lemma {:induction false} PurgesTakeTheExpired(x: Setup, calls: seq<Timed>, now: int)
    requires Ordered(calls, now) && FreshSecrets(x, calls) && x.sessionTtl > 0
    ensures OnlyPurged(After(x, calls).sessions, After(x, WithoutHousekeeping(calls)).sessions, calls)
  {
    hide Decide, Sound, AlikeWrites, OnlyPurged;
    if calls == [] {
      NothingPurged();
    } else {
      var init, last := calls[..|calls| - 1], calls[|calls| - 1];
      var kept := WithoutHousekeeping(init);
      var a, b := After(x, init), After(x, kept);
      assert calls == init + [last];
      PurgesTakeTheExpired(x, init, last.now);
      if last.call.HousekeepingCall? {
        HousekeepingPurges(x, a, last);
        OnlyPurgedAfterPurge(a.sessions, b.sessions, init, last);
        assert WithoutHousekeeping(calls) == kept;
      } else {
        assert (kept + [last])[..|kept|] == kept;
        RunsAreAlike(x, init, last.now);
        SessionsWereIssued(x, init);
        SessionsWereIssued(x, kept);
        DecisionsAreAlike(x, a, b, last);
        NewSessionsLast(x, a, last);
        CallsArePast(init, last.now);
        OnlyPurgedAfterOther(a.sessions, b.sessions, init, last, Decide(x, a, last).write, Decide(x, b, last).write);
      }
    }
  }

  lemma NothingPurged()
    ensures OnlyPurged(map[], map[], [])
  {
  }

  /** Logging out sees the purges in one case only: the onboarding report of a session that is
      held, was never revoked and had expired by a purge is due without housekeeping and not with it. */
  lemma LogoutsSeePurges(x: Setup, calls: seq<Timed>, token: string, now: int)
    requires Ordered(calls, now) && FreshSecrets(x, calls) && x.sessionTtl > 0
    ensures var held, h := After(x, WithoutHousekeeping(calls)).sessions, x.hashToken(token);
            Logout(x, After(x, calls), token).reply == Logout(x, After(x, WithoutHousekeeping(calls)), token).reply
            <==> !(h in held && !held[h].revoked && PurgedSince(calls, held[h].expiresAt))
  {
    hide PurgedSince, After;
    PurgesTakeTheExpired(x, calls, now);
  }

  /** Revoking sees them in the same case: its count changes exactly when the user has such a session. */
  lemma RevokesSeePurges(x: Setup, calls: seq<Timed>, tenantId: string, userId: string, now: int)
    requires Ordered(calls, now) && FreshSecrets(x, calls) && x.sessionTtl > 0
    ensures var held := After(x, WithoutHousekeeping(calls)).sessions;
            Revoke(After(x, calls), tenantId, userId).reply
            == Revoke(After(x, WithoutHousekeeping(calls)), tenantId, userId).reply
            <==> !exists h :: h in Unrevoked(held, tenantId, userId) && PurgedSince(calls, held[h].expiresAt)
  {
    hide PurgedSince, After;
    var with, held := After(x, calls).sessions, After(x, WithoutHousekeeping(calls)).sessions;
    PurgesTakeTheExpired(x, calls, now);
    var few, all := Unrevoked(with, tenantId, userId), Unrevoked(held, tenantId, userId);
    assert few <= all;
    if h :| h in all && PurgedSince(calls, held[h].expiresAt) {
      assert h in all - few;
      assert |all - few| == |all| - |few|;
    } else {
      assert few == all;
    }
  }
}
