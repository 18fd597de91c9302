/** Role- and attribute-based access control: the one decision everything routes through. */
module Rbac {
  import opened Values
  import opened Contracts

  function ObjectResource(objectType: string): string {
    "object:" + objectType
  }

  /** Exact match, "*", or a prefix pattern ending in "*". */
  predicate MatchesResource(pattern: string, resource: string) {
    || pattern == "*"
    || pattern == resource
    || (pattern != [] && pattern[|pattern| - 1] == '*'
        && HasPrefix(resource, pattern[..|pattern| - 1]))
  }

  predicate ActionCovered(granted: Action, requested: Action) {
    granted == requested || granted == Manage
  }

  predicate ScopeHolds(scope: Scope, ctx: AuthContext, target: Option<Record>) {
    match scope
    case Platform => ctx.isPlatformAdmin
    case Tenant => true
    case Org => target.None? || target.value.orgId == ctx.orgId
    case Workspace => target.None? || target.value.workspaceId == ctx.workspaceId
    case Own => target.None? || OwnedBy(target.value, ctx.actorId)
  }

  const RECORD_PREFIX := "record."
  const ACTOR_PREFIX := "actor."

  predicate NamesRecordField(path: string) {
    HasPrefix(path, RECORD_PREFIX)
  }

  /** The record field a condition path names. */
  function RecordField(path: string): string
    requires NamesRecordField(path)
  {
    path[|RECORD_PREFIX|..]
  }

  /** The operand of a condition; None when it cannot be resolved. */
  function Operand(path: string, ctx: AuthContext, target: Option<Record>): Option<Value> {
    if NamesRecordField(path) then
      if target.None? then None else Lookup(target.value.data, RecordField(path))
    else if HasPrefix(path, ACTOR_PREFIX) then
      var attr := path[|ACTOR_PREFIX|..];
      if attr == "id" then Some(Str(ctx.actorId))
      else if attr == "org_id" then Some(Str(ctx.orgId))
      else None
    else None
  }

  /** A condition whose operand cannot be resolved does not block the grant. */
  predicate ConditionHolds(c: Condition, ctx: AuthContext, target: Option<Record>) {
    var lhs := Operand(c.field, ctx, target);
    lhs.None? || Compare(lhs.value, c.op, c.value)
  }

  predicate ConditionsHold(cs: seq<Condition>, ctx: AuthContext, target: Option<Record>) {
    forall c | c in cs :: ConditionHolds(c, ctx, target)
  }

  /** Does the grant authorize the action on the resource for this target? */
  predicate GrantApplies(
    advanced: bool, g: Grant, ctx: AuthContext, action: Action, resource: string, target: Option<Record>)
  {
    && ActionCovered(g.action, action)
    && MatchesResource(g.resource, resource)
    && ScopeHolds(g.scope, ctx, target)
    && (advanced ==> ConditionsHold(g.conditions, ctx, target))
  }

  /** The grants of every role row of the actor's tenant that the actor holds. */
  function EffectiveGrants(roles: seq<RoleRow>, ctx: AuthContext): seq<Grant> {
    if roles == [] then []
    else
      EffectiveGrants(roles[..|roles| - 1], ctx)
      + RowGrants(roles[|roles| - 1], ctx)
  }

  function RowGrants(row: RoleRow, ctx: AuthContext): seq<Grant> {
    if row.tenantId == ctx.tenantId && row.key in ctx.roleKeys then row.grants else []
  }

  /** `grants_allow`: trusted actors pass, others need an applicable grant. */
  predicate GrantsAllow(
    advanced: bool, grants: seq<Grant>, ctx: AuthContext, action: Action, resource: string,
    target: Option<Record>)
  {
    Trusted(ctx) || exists g | g in grants :: GrantApplies(advanced, g, ctx, action, resource, target)
  }

  /** `authorize`, as a decision. */
  predicate Authorized(
    cfg: Config, ctx: AuthContext, action: Action, resource: string, target: Option<Record>)
  {
    GrantsAllow(cfg.advancedPermissions, EffectiveGrants(cfg.roles, ctx), ctx, action, resource, target)
  }

  /** The grants among `grants` that apply, in order. */
  function Applicable(
    advanced: bool, grants: seq<Grant>, ctx: AuthContext, action: Action, resource: string,
    target: Option<Record>): (r: seq<Grant>)
    ensures forall g :: g in r <==>
              g in grants && GrantApplies(advanced, g, ctx, action, resource, target)
  {
    if grants == [] then []
    else
      Applicable(advanced, grants[..|grants| - 1], ctx, action, resource, target)
      + (var g := grants[|grants| - 1];
         if GrantApplies(advanced, g, ctx, action, resource, target) then [g] else [])
  }

  /** Stands for full access: denies no field. */
  const ADMIN_GRANT := Grant(Manage, "*", Tenant, Some(DenyFields([])), [])

  /** `grants_for`: what field checks on a write consult. */
  function GrantsFor(
    cfg: Config, ctx: AuthContext, action: Action, resource: string, target: Option<Record>): seq<Grant>
  {
    if Trusted(ctx) then [ADMIN_GRANT]
    else Applicable(cfg.advancedPermissions, EffectiveGrants(cfg.roles, ctx), ctx, action, resource, target)
  }

  /** `applicable_read_grants`: what field checks on a read consult. */
  function ReadGrants(cfg: Config, ctx: AuthContext, resource: string, r: Record): seq<Grant> {
    Applicable(cfg.advancedPermissions, EffectiveGrants(cfg.roles, ctx), ctx, Read, resource, Some(r))
  }

  predicate RulePermits(rule: FieldRule, key: string) {
    match rule
    case AllowFields(fields) => key in fields
    case DenyFields(fields) => key !in fields
  }

  predicate Restricted(fields: seq<FieldDef>, key: string) {
    var f := FieldOf(fields, key);
    f.Some? && f.value.restricted
  }

  /** Restricted fields need a grant whose field rule permits them. */
  predicate FieldPermitted(grants: seq<Grant>, otype: ObjectType, key: string) {
    Restricted(otype.fields, key) ==>
      exists g | g in grants :: g.fields.Some? && RulePermits(g.fields.value, key)
  }

  /** `project_fields`: only the visible fields remain. */
  function Project(r: Record, grants: seq<Grant>, otype: ObjectType): (p: Record)
    ensures p.(data := r.data) == r
    ensures forall k :: k in p.data <==> k in r.data && FieldPermitted(grants, otype, k)
    ensures forall k | k in p.data :: p.data[k] == r.data[k]
  {
    r.(data := map k | k in r.data && FieldPermitted(grants, otype, k) :: r.data[k])
  }

  /** `project_for_read`: trusted actors see everything. */
  function ProjectForRead(cfg: Config, ctx: AuthContext, r: Record, otype: ObjectType): Record {
    if Trusted(ctx) then r
    else Project(r, ReadGrants(cfg, ctx, ObjectResource(r.objectType), r), otype)
  }

  /** The loop that loads the actor's grants role row by role row. */
  method LoadGrants(roles: seq<RoleRow>, ctx: AuthContext) returns (grants: seq<Grant>)
    ensures grants == EffectiveGrants(roles, ctx)
  {
    grants := [];
    if ctx.roleKeys == [] {
      NoRolesNoGrants(roles, ctx);
      return;
    }
    for i := 0 to |roles|
      invariant grants == EffectiveGrants(roles[..i], ctx)
    {
      assert roles[..i + 1][..i] == roles[..i];
      if roles[i].tenantId == ctx.tenantId && roles[i].key in ctx.roleKeys {
        grants := grants + roles[i].grants;
      }
    }
    assert roles[..|roles|] == roles;
  }

  lemma NoRolesNoGrants(roles: seq<RoleRow>, ctx: AuthContext)
    requires ctx.roleKeys == []
    ensures EffectiveGrants(roles, ctx) == []
  {
  }

  /** A grant is in force exactly when some role row of the actor's own tenant, held by
      the actor, carries it. */
  lemma {:induction false} GrantsComeFromOwnRoles(roles: seq<RoleRow>, ctx: AuthContext, g: Grant)
    ensures g in EffectiveGrants(roles, ctx) <==>
            exists row | row in roles ::
              row.tenantId == ctx.tenantId && row.key in ctx.roleKeys && g in row.grants
  {
    if roles != [] {
      var init, last := roles[..|roles| - 1], roles[|roles| - 1];
      GrantsComeFromOwnRoles(init, ctx, g);
      assert roles == init + [last];
    }
  }
}
