/** What a grant takes in: actions, resources, scopes, conditions and fields, spelled out on the
    stored values, and the access decision as just that. */
module Entitlement {
  import opened Values
  import opened Contracts
  import opened Rbac
  import opened Filtering

  predicate StarAfter(pattern: string, resource: string, n: int) {
    0 <= n <= |resource| && pattern == resource[..n] + "*"
  }

  /** The pattern is the resource, or a beginning of it with a star behind. */
  ghost predicate Names(pattern: string, resource: string) {
    pattern == resource || exists n :: StarAfter(pattern, resource, n)
  }

  /** The actor made the record, or stands in one of its three owner fields. */
  predicate Owns(actorId: string, r: Record) {
    || r.createdBy == actorId
    || Lookup(r.data, "owner_id") == Some(Str(actorId))
    || Lookup(r.data, "assignee_id") == Some(Str(actorId))
    || Lookup(r.data, "user_id") == Some(Str(actorId))
  }

  /** What the condition is about stands to its value as it says, if there is such a thing. */
  ghost predicate Met(c: Condition, ctx: AuthContext, target: Option<Record>) {
    && (target.Some? ==>
          forall key | key in target.value.data && c.field == "record." + key ::
            Stands(target.value.data[key], c.op, c.value))
    && (c.field == "actor.id" ==> Stands(Str(ctx.actorId), c.op, c.value))
    && (c.field == "actor.org_id" ==> Stands(Str(ctx.orgId), c.op, c.value))
  }

  /** The record lies in the scope; where no record is in question, only the platform scope binds. */
  ghost predicate InScope(scope: Scope, ctx: AuthContext, target: Option<Record>) {
    && (scope == Platform ==> ctx.isPlatformAdmin)
    && (target.Some? ==>
          && (scope == Org ==> target.value.orgId == ctx.orgId)
          && (scope == Workspace ==> target.value.workspaceId == ctx.workspaceId)
          && (scope == Own ==> Owns(ctx.actorId, target.value)))
  }

  ghost predicate Covers(
    cfg: Config, ctx: AuthContext, g: Grant, action: Action, resource: string, target: Option<Record>)
  {
    && (g.action == action || g.action == Manage)
    && Names(g.resource, resource)
    && InScope(g.scope, ctx, target)
    && (cfg.advancedPermissions ==> forall c | c in g.conditions :: Met(c, ctx, target))
  }

  predicate Unlimited(ctx: AuthContext) {
    ctx.actorType == System || ctx.isPlatformAdmin
  }

  /** Some role row of the caller's own tenant that the caller holds has a grant that takes it in. */
  ghost predicate Entitled(cfg: Config, ctx: AuthContext, action: Action, resource: string, target: Option<Record>) {
    || Unlimited(ctx)
    || exists row, g | row in cfg.roles && g in row.grants ::
         row.tenantId == ctx.tenantId && row.key in ctx.roleKeys && Covers(cfg, ctx, g, action, resource, target)
  }

  /** The grant's field rule lists the field as allowed, or does not list it as denied. */
  predicate LetsThrough(g: Grant, key: string) {
    g.fields.Some?
    && match g.fields.value
       case AllowFields(allowed) => exists i | 0 <= i < |allowed| :: allowed[i] == key
       case DenyFields(denied) => forall i | 0 <= i < |denied| :: denied[i] != key
  }

  // ---- the decision is just that ------------------------------------------------------------------

  lemma NamesMeans(pattern: string, resource: string)
    ensures MatchesResource(pattern, resource) <==> Names(pattern, resource)
  {
    if pattern == "*" {
      assert StarAfter(pattern, resource, 0);
    }
    if pattern != [] && pattern[|pattern| - 1] == '*' && HasPrefix(resource, pattern[..|pattern| - 1]) {
      assert StarAfter(pattern, resource, |pattern| - 1);
    }
    if n :| StarAfter(pattern, resource, n) {
      assert pattern[..|pattern| - 1] == resource[..n];
    }
  }

  lemma OwnsMeans(actorId: string, r: Record)
    ensures OwnedBy(r, actorId) <==> Owns(actorId, r)
  {
    assert OWNER_FIELDS[0] == "owner_id" && OWNER_FIELDS[1] == "assignee_id" && OWNER_FIELDS[2] == "user_id";
    assert "owner_id" in OWNER_FIELDS && "assignee_id" in OWNER_FIELDS && "user_id" in OWNER_FIELDS;
  }

  lemma MetMeans(c: Condition, ctx: AuthContext, target: Option<Record>)
    ensures ConditionHolds(c, ctx, target) <==> Met(c, ctx, target)
  {
    hide Stands, Compare;
    forall v ensures Compare(v, c.op, c.value) <==> Stands(v, c.op, c.value) {
      CompareMeans(v, c.op, c.value);
    }
    if NamesRecordField(c.field) {
      assert c.field == "record." + RecordField(c.field);
      assert c.field[0] == 'r';
      assert forall key | c.field == "record." + key :: key == RecordField(c.field);
    } else if HasPrefix(c.field, ACTOR_PREFIX) {
      assert c.field == "actor." + c.field[|ACTOR_PREFIX|..];
      assert "actor.id"[|ACTOR_PREFIX|..] == "id" && "actor.org_id"[|ACTOR_PREFIX|..] == "org_id";
      assert forall key: string :: ("record." + key)[0] == 'r';
    } else {
      assert HasPrefix("actor.id", ACTOR_PREFIX) && HasPrefix("actor.org_id", ACTOR_PREFIX);
      assert forall key: string :: HasPrefix("record." + key, RECORD_PREFIX);
    }
  }

  lemma CoversMeans(cfg: Config, ctx: AuthContext, g: Grant, action: Action, resource: string, target: Option<Record>)
    ensures GrantApplies(cfg.advancedPermissions, g, ctx, action, resource, target)
            <==> Covers(cfg, ctx, g, action, resource, target)
  {
    hide MatchesResource, Names, OwnedBy, Owns, ConditionHolds, Met;
    NamesMeans(g.resource, resource);
    if target.Some? {
      OwnsMeans(ctx.actorId, target.value);
    }
    forall c | c in g.conditions ensures ConditionHolds(c, ctx, target) <==> Met(c, ctx, target) {
      MetMeans(c, ctx, target);
    }
  }

  /** Access is granted exactly to the entitled. */
  lemma AuthorizedExactlyWhenEntitled(
    cfg: Config, ctx: AuthContext, action: Action, resource: string, target: Option<Record>)
    ensures Authorized(cfg, ctx, action, resource, target) <==> Entitled(cfg, ctx, action, resource, target)
  {
    hide GrantApplies, Covers, EffectiveGrants;
    forall g
      ensures g in EffectiveGrants(cfg.roles, ctx) <==>
              exists row | row in cfg.roles ::
                row.tenantId == ctx.tenantId && row.key in ctx.roleKeys && g in row.grants
      ensures GrantApplies(cfg.advancedPermissions, g, ctx, action, resource, target)
              <==> Covers(cfg, ctx, g, action, resource, target)
    {
      GrantsComeFromOwnRoles(cfg.roles, ctx, g);
      CoversMeans(cfg, ctx, g, action, resource, target);
    }
  }

  lemma LetsThroughMeans(g: Grant, key: string)
    ensures g.fields.Some? && RulePermits(g.fields.value, key) <==> LetsThrough(g, key)
  {
  }

  /** The caller holds the grant, through a role row of its tenant. */
  ghost predicate Holding(cfg: Config, ctx: AuthContext, g: Grant) {
    exists row | row in cfg.roles :: row.tenantId == ctx.tenantId && row.key in ctx.roleKeys && g in row.grants
  }

  lemma EntitledHolds(
    cfg: Config, ctx: AuthContext, action: Action, resource: string, target: Option<Record>) returns (g: Grant)
    requires Entitled(cfg, ctx, action, resource, target) && !Unlimited(ctx)
    ensures Holding(cfg, ctx, g) && Covers(cfg, ctx, g, action, resource, target)
  {
    hide Covers;
    var row, h :| row in cfg.roles && h in row.grants
                  && row.tenantId == ctx.tenantId && row.key in ctx.roleKeys
                  && Covers(cfg, ctx, h, action, resource, target);
    g := h;
  }
}
