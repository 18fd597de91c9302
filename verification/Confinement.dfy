/** What a caller's grants confine it to, call by call, and what they open to it. */
module Confinement {
  import opened Values
  import opened Contracts
  import opened Rbac
  import opened Store
  import opened Machine
  import opened Entitlement
  import AccessControl
  import ReadPath
  import S = Services

  // ---- what a call does with a stored record ----------------------------------------------------

  /** The action a call needs on the records it shows or moves. */
  function Used(op: Op): Option<Action> {
    match op
    case GetOp(_) => Some(Read)
    case ListOp(_, _) => Some(Read)
    case ScanOp(_, _, _) => Some(Read)
    case UpdateOp(_, _) => Some(Update)
    case LifecycleOp(_, to) => Some(if to.Archived? then Archive else Restore)
    case TransitionOp(_, _, _, _, _) => Some(Transition_)
    case DecideOp(_, _, _) => Some(Approve)
    case _ => None
  }

  /** A get, list or scan replies with the record, or the call replaces it. */
  ghost predicate Touches(cfg: Config, db: Db, c: Call, id: string) {
    id in db.records
    && (((c.op.GetOp? || c.op.ListOp? || c.op.ScanOp?)
         && exists shown | shown in AccessControl.RecordsIn(Decide(cfg, db, c).reply) :: shown.id == id)
        || (id in Step(cfg, db, c).records && Step(cfg, db, c).records[id] != db.records[id] && !c.op.CreateOp?))
  }

  /** Some grant the caller holds takes in the action on the record, under the resource. */
  ghost predicate OpenAs(cfg: Config, ctx: AuthContext, action: Action, resource: string, r: Record) {
    Unlimited(ctx) || exists g :: Holding(cfg, ctx, g) && Covers(cfg, ctx, g, action, resource, Some(r))
  }

  ghost predicate Open(cfg: Config, ctx: AuthContext, action: Action, r: Record) {
    exists resource :: OpenAs(cfg, ctx, action, resource, r)
  }

  lemma AuthorizedIsOpen(cfg: Config, ctx: AuthContext, action: Action, resource: string, r: Record)
    requires Authorized(cfg, ctx, action, resource, Some(r))
    ensures OpenAs(cfg, ctx, action, resource, r)
  {
    hide Authorized, Entitled, Covers, Holding;
    AuthorizedExactlyWhenEntitled(cfg, ctx, action, resource, Some(r));
    if !Unlimited(ctx) {
      var g := EntitledHolds(cfg, ctx, action, resource, Some(r));
    }
  }

  lemma UpdatesAreOpen(
    cfg: Config, db: Db, ctx: AuthContext, id: string, patch: seq<(string, Value)>, now: int, touched: string)
    requires WellFormed(db) && touched in db.records
    requires var after := Commit(db, S.UpdateRecord(cfg, db, ctx, id, patch, now).tx).records;
             touched in after && after[touched] != db.records[touched]
    ensures OpenAs(cfg, ctx, Update, "object:" + db.records[touched].objectType, db.records[touched])
  {
    hide Authorized, S.ApplyEdits, S.DataFits, OpenAs, ProjectForRead;
    AuthorizedIsOpen(cfg, ctx, Update, ObjectResource(db.records[id].objectType), db.records[id]);
  }

  lemma LifecyclesAreOpen(
    cfg: Config, db: Db, ctx: AuthContext, id: string, to: Lifecycle, now: int, touched: string)
    requires WellFormed(db) && touched in db.records
    requires var after := Commit(db, S.SetLifecycle(cfg, db, ctx, id, to, now).tx).records;
             touched in after && after[touched] != db.records[touched]
    ensures OpenAs(cfg, ctx, if to.Archived? then Archive else Restore,
                   "object:" + db.records[touched].objectType, db.records[touched])
  {
    hide Authorized, OpenAs;
    AuthorizedIsOpen(cfg, ctx, if to.Archived? then Archive else Restore,
                     ObjectResource(db.records[id].objectType), db.records[id]);
  }

  lemma TakingTouchesOne(
    db: Db, ctx: AuthContext, r: Record, t: Transition, current: string, reason: Option<string>, approvalId: string,
    taskId: string, now: int, touched: string)
    requires touched in db.records && touched != r.id
    ensures var after := Commit(db, S.TakeTransition(db, ctx, r, t, current, reason, approvalId, taskId, now).tx);
            after.records == db.records || (touched in after.records && after.records[touched] == db.records[touched])
  {
  }

  lemma TransitionsTouchTheirs(
    cfg: Config, db: Db, ctx: AuthContext, id: string, key: string, reason: Option<string>, approvalId: string,
    taskId: string, now: int, touched: string)
    requires WellFormed(db) && touched in db.records
    requires var tx := S.TransitionRecord(cfg, db, ctx, id, key, reason, approvalId, taskId, now).tx;
             touched in Commit(db, tx).records && Commit(db, tx).records[touched] != db.records[touched]
    ensures touched == id && !S.TransitionRecord(cfg, db, ctx, id, key, reason, approvalId, taskId, now).tx.Denial?
    ensures !S.TransitionRecord(cfg, db, ctx, id, key, reason, approvalId, taskId, now).tx.NoWrite?
  {
    hide Authorized, S.TakeTransition;
    var found := LoadRecord(db, ctx.tenantId, id);
    if found.Some? && WorkflowOf(cfg, ctx.tenantId, found.value.objectType).Some? {
      var wf := WorkflowOf(cfg, ctx.tenantId, found.value.objectType).value;
      var current := S.CurrentState(found.value, wf);
      var step := TransitionFrom(wf.transitions, current, key);
      if step.Some? && touched != id {
        TakingTouchesOne(db, ctx, found.value, step.value, current, reason, approvalId, taskId, now, touched);
      }
    }
  }

  lemma TransitionsAreOpen(
    cfg: Config, db: Db, ctx: AuthContext, id: string, key: string, reason: Option<string>, approvalId: string,
    taskId: string, now: int, touched: string)
    requires WellFormed(db) && touched in db.records
    requires var tx := S.TransitionRecord(cfg, db, ctx, id, key, reason, approvalId, taskId, now).tx;
             touched in Commit(db, tx).records && Commit(db, tx).records[touched] != db.records[touched]
    ensures Open(cfg, ctx, Transition_, db.records[touched])
  {
    hide Authorized, OpenAs, S.TakeTransition, Commit;
    TransitionsTouchTheirs(cfg, db, ctx, id, key, reason, approvalId, taskId, now, touched);
    var r := db.records[id];
    var wf := WorkflowOf(cfg, ctx.tenantId, r.objectType).value;
    var t := TransitionFrom(wf.transitions, S.CurrentState(r, wf), key).value;
    AuthorizedIsOpen(cfg, ctx, Transition_,
                     if t.guardPermission.Some? then t.guardPermission.value else ObjectResource(r.objectType), r);
  }

  lemma DecisionsAreOpen(
    cfg: Config, db: Db, ctx: AuthContext, id: string, approved: bool, reason: Option<string>, now: int,
    touched: string)
    requires WellFormed(db) && touched in db.records
    requires var tx := S.DecideApproval(cfg, db, ctx, id, approved, reason, now).tx;
             touched in Commit(db, tx).records && Commit(db, tx).records[touched] != db.records[touched]
    ensures Open(cfg, ctx, Approve, db.records[touched])
  {
    hide Authorized, OpenAs, S.SelfDecision;
    AuthorizedIsOpen(cfg, ctx, Approve, ObjectResource(S.TypeOrBlank(db.approvals[id])), db.records[touched]);
  }

  lemma ReadsAreOpen(cfg: Config, db: Db, c: Call, shown: Record)
    requires WellFormed(db) && (c.op.GetOp? || c.op.ListOp? || c.op.ScanOp?)
    requires shown in AccessControl.RecordsIn(Decide(cfg, db, c).reply) && shown.id in db.records
    ensures OpenAs(cfg, c.ctx, Read, "object:" + db.records[shown.id].objectType, db.records[shown.id])
  {
    hide Decide, WellFormed, Authorized, OpenAs;
    AccessControl.ReadsShowProperly(cfg, db, c, shown);
    var r := db.records[shown.id];
    AuthorizedIsOpen(cfg, c.ctx, Read, ObjectResource(r.objectType), r);
  }

  lemma OthersReplaceNothing(cfg: Config, db: Db, c: Call, id: string)
    requires !c.op.CreateOp? && !c.op.UpdateOp? && !c.op.LifecycleOp? && !c.op.TransitionOp? && !c.op.DecideOp?
    requires id in db.records
    ensures id in Step(cfg, db, c).records && Step(cfg, db, c).records[id] == db.records[id]
  {
    hide Decide;
    if c.op.RelateOp? || c.op.CreateTaskOp? || c.op.CompleteTaskOp? {
      TasksAndRelationsApart(cfg, db, c);
    } else {
      AccessControl.ReadsWriteNothing(cfg, db, c);
    }
  }

  lemma TasksAndRelationsApart(cfg: Config, db: Db, c: Call)
    requires c.op.RelateOp? || c.op.CreateTaskOp? || c.op.CompleteTaskOp?
    ensures var tx := Decide(cfg, db, c).tx;
            tx.NoWrite? || tx.Denial? || tx.InsertRelation? || tx.InsertTask? || tx.ReplaceTask?
  {
    hide Authorized;
  }

  /** A call shows or replaces only records that its caller's grants open to the action. */
  lemma TouchedRecordsAreOpen(cfg: Config, db: Db, c: Call, id: string)
    requires WellFormed(db) && Touches(cfg, db, c, id)
    ensures id in db.records && Used(c.op).Some? && Open(cfg, c.ctx, Used(c.op).value, db.records[id])
    ensures !c.op.TransitionOp? && !c.op.DecideOp? ==>
              OpenAs(cfg, c.ctx, Used(c.op).value, "object:" + db.records[id].objectType, db.records[id])
  {
    hide WellFormed, OpenAs, Commit, S.UpdateRecord, S.SetLifecycle, S.TransitionRecord, S.DecideApproval, S.GetRecord,
      S.ListRecords, S.ScanRecords;
    match c.op {
      case UpdateOp(target, patch) => UpdatesAreOpen(cfg, db, c.ctx, target, patch, c.now, id);
      case LifecycleOp(target, to) => LifecyclesAreOpen(cfg, db, c.ctx, target, to, c.now, id);
      case TransitionOp(target, key, reason, approvalId, taskId) =>
        TransitionsAreOpen(cfg, db, c.ctx, target, key, reason, approvalId, taskId, c.now, id);
      case DecideOp(target, approved, reason) => DecisionsAreOpen(cfg, db, c.ctx, target, approved, reason, c.now, id);
      case GetOp(_) => ReadsTouch(cfg, db, c, id);
      case ListOp(_, _) => ReadsTouch(cfg, db, c, id);
      case ScanOp(_, _, _) => ReadsTouch(cfg, db, c, id);
      case _ => OthersReplaceNothing(cfg, db, c, id);
    }
  }

  lemma ReadsTouch(cfg: Config, db: Db, c: Call, id: string)
    requires WellFormed(db) && Touches(cfg, db, c, id) && (c.op.GetOp? || c.op.ListOp? || c.op.ScanOp?)
    ensures OpenAs(cfg, c.ctx, Read, "object:" + db.records[id].objectType, db.records[id])
  {
    hide Decide, WellFormed, OpenAs, Step;
    OthersReplaceNothing(cfg, db, c, id);
    var shown :| shown in AccessControl.RecordsIn(Decide(cfg, db, c).reply) && shown.id == id;
    ReadsAreOpen(cfg, db, c, shown);
  }

  // ---- confinement ---------------------------------------------------------------------------------

  /** Every grant the caller holds for the action, or for everything, has the scope. */
  ghost predicate AllScoped(cfg: Config, ctx: AuthContext, action: Action, scope: Scope) {
    forall row, g | row in cfg.roles && g in row.grants ::
      row.tenantId == ctx.tenantId && row.key in ctx.roleKeys && (g.action == action || g.action == Manage)
      ==> g.scope == scope
  }

  /** A caller that is neither the system nor a platform admin, and whose grants for an action all
      have one scope, neither gets nor replaces by that action a record outside the scope: of another
      organization, of another workspace, or of someone else; with platform scope, none at all. */
  lemma ScopesConfine(cfg: Config, db: Db, c: Call, id: string, scope: Scope)
    requires WellFormed(db) && Touches(cfg, db, c, id)
    requires c.ctx.actorType != System && !c.ctx.isPlatformAdmin
    requires Used(c.op).Some? ==> AllScoped(cfg, c.ctx, Used(c.op).value, scope)
    ensures var r := db.records[id];
            && (scope == Org ==> r.orgId == c.ctx.orgId)
            && (scope == Workspace ==> r.workspaceId == c.ctx.workspaceId)
            && (scope == Own ==>
                  || r.createdBy == c.ctx.actorId
                  || Lookup(r.data, "owner_id") == Some(Str(c.ctx.actorId))
                  || Lookup(r.data, "assignee_id") == Some(Str(c.ctx.actorId))
                  || Lookup(r.data, "user_id") == Some(Str(c.ctx.actorId)))
            && scope != Platform
  {
    hide WellFormed, Touches, Names, Met;
    TouchedRecordsAreOpen(cfg, db, c, id);
    var resource :| OpenAs(cfg, c.ctx, Used(c.op).value, resource, db.records[id]);
    var g :| Holding(cfg, c.ctx, g) && Covers(cfg, c.ctx, g, Used(c.op).value, resource, Some(db.records[id]));
    assert g.scope == scope;
  }

  /** Grants for other actions open nothing: a caller without a grant for the action or for
      everything neither gets nor replaces a record by it. */
  lemma OtherActionsOpenNothing(cfg: Config, db: Db, c: Call, id: string)
    requires WellFormed(db) && id in db.records && Used(c.op).Some?
    requires c.ctx.actorType != System && !c.ctx.isPlatformAdmin
    requires forall row, g | row in cfg.roles && g in row.grants ::
               row.tenantId == c.ctx.tenantId && row.key in c.ctx.roleKeys
               ==> g.action != Used(c.op).value && g.action != Manage
    ensures !Touches(cfg, db, c, id)
  {
    hide WellFormed, Touches, Names, Met;
    if Touches(cfg, db, c, id) {
      TouchedRecordsAreOpen(cfg, db, c, id);
    }
  }

  /** Nor do grants on other resources: a caller whose grants for the action, or for everything, all
      miss the record's type, neither naming it nor a beginning of it with a star, neither gets,
      updates, archives nor restores it. */
  lemma OtherResourcesOpenNothing(cfg: Config, db: Db, c: Call, id: string)
    requires WellFormed(db) && id in db.records && Used(c.op).Some? && !c.op.TransitionOp? && !c.op.DecideOp?
    requires c.ctx.actorType != System && !c.ctx.isPlatformAdmin
    requires forall row, g | row in cfg.roles && g in row.grants ::
               row.tenantId == c.ctx.tenantId && row.key in c.ctx.roleKeys
               && (g.action == Used(c.op).value || g.action == Manage)
               ==> !Names(g.resource, "object:" + db.records[id].objectType)
    ensures !Touches(cfg, db, c, id)
  {
    hide WellFormed, Touches, Names, Met;
    if Touches(cfg, db, c, id) {
      TouchedRecordsAreOpen(cfg, db, c, id);
    }
  }

  // ---- what grants open ------------------------------------------------------------------------------

  /** The reply to a get, by entitlement: the record to the entitled, a refusal to the others. */
  lemma GetsGoExactlyToTheEntitled(cfg: Config, db: Db, ctx: AuthContext, id: string, now: int)
    requires id in db.records && db.records[id].tenantId == ctx.tenantId
    requires LoadType(cfg, ctx.tenantId, db.records[id].objectType).Some?
    ensures var r, out := db.records[id], S.GetRecord(cfg, db, ctx, id, now);
            if Entitled(cfg, ctx, Read, "object:" + r.objectType, Some(r))
            then out.reply.Ok? && out.reply.value.id == r.id && out.tx == NoWrite
            else out.reply == Err(Forbidden) && out.tx.Denial?
  {
    hide Authorized, Entitled, ProjectForRead;
    var r := db.records[id];
    AuthorizedExactlyWhenEntitled(cfg, ctx, Read, "object:" + r.objectType, Some(r));
    ProjectionKeepsId(cfg, ctx, r, LoadType(cfg, ctx.tenantId, r.objectType).value);
  }

  lemma ProjectionKeepsId(cfg: Config, ctx: AuthContext, r: Record, otype: ObjectType)
    ensures ProjectForRead(cfg, ctx, r, otype).id == r.id
  {
  }

  /** The scopes as a grant without conditions opens them: all of the tenant, the caller's
      organization, its workspace, its own records. */
  predicate Reaches(scope: Scope, ctx: AuthContext, r: Record) {
    match scope
    case Platform => ctx.isPlatformAdmin
    case Tenant => true
    case Org => r.orgId == ctx.orgId
    case Workspace => r.workspaceId == ctx.workspaceId
    case Own => Owns(ctx.actorId, r)
  }

  /** Such a grant, for the action or for everything, on the type by name, by a beginning with a
      star, or by a star alone, opens every stored record of the type in its scope: to be fetched, or
      archived and restored. */
  lemma ScopesReach(
    cfg: Config, db: Db, ctx: AuthContext, row: RoleRow, g: Grant, id: string, to: Lifecycle, now: int)
    requires id in db.records && db.records[id].tenantId == ctx.tenantId
    requires LoadType(cfg, ctx.tenantId, db.records[id].objectType).Some?
    requires row in cfg.roles && g in row.grants && row.tenantId == ctx.tenantId && row.key in ctx.roleKeys
    requires g.conditions == [] && Reaches(g.scope, ctx, db.records[id])
    requires var resource := "object:" + db.records[id].objectType;
             g.resource == resource || exists n | 0 <= n <= |resource| :: g.resource == resource[..n] + "*"
    ensures g.action == Read || g.action == Manage ==> S.GetRecord(cfg, db, ctx, id, now).reply.Ok?
    ensures g.action == (if to.Archived? then Archive else Restore) || g.action == Manage ==>
              S.SetLifecycle(cfg, db, ctx, id, to, now).reply.Ok?
  {
    hide Authorized, ProjectForRead, Entitled;
    var r := db.records[id];
    var resource, action := "object:" + r.objectType, if to.Archived? then Archive else Restore;
    if g.action == Read || g.action == Manage {
      GrantEntitles(cfg, ctx, row, g, Read, resource, r);
      AuthorizedExactlyWhenEntitled(cfg, ctx, Read, resource, Some(r));
    }
    if g.action == action || g.action == Manage {
      GrantEntitles(cfg, ctx, row, g, action, resource, r);
      AuthorizedExactlyWhenEntitled(cfg, ctx, action, resource, Some(r));
    }
  }

  lemma GrantEntitles(
    cfg: Config, ctx: AuthContext, row: RoleRow, g: Grant, action: Action, resource: string, r: Record)
    requires row in cfg.roles && g in row.grants && row.tenantId == ctx.tenantId && row.key in ctx.roleKeys
    requires g.conditions == [] && Reaches(g.scope, ctx, r) && (g.action == action || g.action == Manage)
    requires g.resource == resource || exists n | 0 <= n <= |resource| :: g.resource == resource[..n] + "*"
    ensures Entitled(cfg, ctx, action, resource, Some(r))
  {
    if n :| 0 <= n <= |resource| && g.resource == resource[..n] + "*" {
      assert StarAfter(g.resource, resource, n);
    }
    assert Covers(cfg, ctx, g, action, resource, Some(r));
  }

  // ---- every refusal --------------------------------------------------------------------------------

  /** Separation of duties keeps the caller from deciding its own request. */
  predicate OwnRequest(cfg: Config, ctx: AuthContext, a: Approval) {
    cfg.separationOfDuties && a.requestedBy == ctx.actorId && !Unlimited(ctx)
  }

  ghost predicate MaySeeTask(cfg: Config, ctx: AuthContext, t: Task) {
    t.assigneeId == Some(ctx.actorId) || t.createdBy == ctx.actorId || Entitled(cfg, ctx, Read, "task", None)
  }

  ghost predicate OpenTo(cfg: Config, ctx: AuthContext, action: Action, r: Record) {
    Entitled(cfg, ctx, action, "object:" + r.objectType, Some(r))
  }

  /** The record, if it is stored in the tenant, is closed to the caller. */
  ghost predicate Closed(cfg: Config, db: Db, ctx: AuthContext, action: Action, id: string) {
    LoadRecord(db, ctx.tenantId, id).Some? && !OpenTo(cfg, ctx, action, db.records[id])
  }

  /** The transition that the key names out of the record's state, if everything it takes is there. */
  function Asked(cfg: Config, db: Db, ctx: AuthContext, id: string, key: string): Option<Transition> {
    match LoadRecord(db, ctx.tenantId, id)
    case None => None
    case Some(r) =>
      var typeKey := TenantKey(ctx.tenantId, r.objectType);
      if typeKey !in cfg.types || cfg.types[typeKey].workflowKey.None? then None
      else
        var workflowKey := TenantKey(ctx.tenantId, cfg.types[typeKey].workflowKey.value);
        if workflowKey !in cfg.workflows then None
        else
          var wf := cfg.workflows[workflowKey];
          TransitionFrom(wf.transitions, if r.workflowState.Some? then r.workflowState.value else wf.initialState, key)
  }

  /** The caller lacks what the call asks for. Fields a create or update may not write are a matter
      of their own. */
  ghost predicate Lacks(cfg: Config, db: Db, c: Call) {
    var ctx := c.ctx;
    match c.op
    case CreateOp(new_, _) => !Entitled(cfg, ctx, Create, "object:" + new_.objectType, None)
    case GetOp(id) => Closed(cfg, db, ctx, Read, id)
    case UpdateOp(id, _) => Closed(cfg, db, ctx, Update, id)
    case LifecycleOp(id, to) => Closed(cfg, db, ctx, if to.Archived? then Archive else Restore, id)
    case RelateOp(fromId, toId, _, _) =>
      && LoadRecord(db, ctx.tenantId, fromId).Some? && LoadRecord(db, ctx.tenantId, toId).Some?
      && (Closed(cfg, db, ctx, Relate, fromId) || Closed(cfg, db, ctx, Read, toId))
    case RelationsOp(id) => Closed(cfg, db, ctx, Read, id)
    case ListOp(objectType, _) => !Entitled(cfg, ctx, Search, "object:" + objectType, None)
    case ScanOp(objectType, _, _) => !Entitled(cfg, ctx, Search, "object:" + objectType, None)
    case ReportOp(def) => !Entitled(cfg, ctx, Search, "object:" + def.objectType, None)
    case AvailableOp(id) => Closed(cfg, db, ctx, Read, id)
    case TransitionOp(id, key, _, _, _) =>
      var t := Asked(cfg, db, ctx, id, key);
      && t.Some?
      && (if t.value.guardPermission.Some?
          then !Entitled(cfg, ctx, Transition_, t.value.guardPermission.value, Some(db.records[id]))
          else Closed(cfg, db, ctx, Transition_, id))
    case GetApprovalOp(_) => !Entitled(cfg, ctx, Read, "approval", None)
    case DecideOp(id, _, _) =>
      var a := LoadApproval(db, ctx.tenantId, id);
      && a.Some? && a.value.status == Pending
      && (OwnRequest(cfg, ctx, a.value)
          || !Entitled(cfg, ctx, Approve,
                       "object:" + (if a.value.relatedObjectType.Some? then a.value.relatedObjectType.value else ""),
                       if a.value.relatedRecordId.Some?
                       then LoadRecord(db, ctx.tenantId, a.value.relatedRecordId.value) else None))
    case CreateTaskOp(_, _) => !Entitled(cfg, ctx, Create, "task", None)
    case GetTaskOp(id) =>
      LoadTask(db, ctx.tenantId, id).Some? && !MaySeeTask(cfg, ctx, db.tasks[id])
    case CompleteTaskOp(id, status) =>
      && (status == Done || status == Cancelled)
      && LoadTask(db, ctx.tenantId, id).Some? && !MaySeeTask(cfg, ctx, db.tasks[id])
  }

  lemma ByEntitlement(cfg: Config, ctx: AuthContext)
    ensures forall action, resource, target ::
              Authorized(cfg, ctx, action, resource, target) <==> Entitled(cfg, ctx, action, resource, target)
  {
    forall action, resource, target
      ensures Authorized(cfg, ctx, action, resource, target) <==> Entitled(cfg, ctx, action, resource, target)
    {
      AuthorizedExactlyWhenEntitled(cfg, ctx, action, resource, target);
    }
  }

  lemma ReadsForbidden(cfg: Config, db: Db, c: Call)
    requires c.op.GetOp? || c.op.RelationsOp? || c.op.ListOp? || c.op.ScanOp? || c.op.ReportOp? || c.op.AvailableOp?
             || c.op.GetApprovalOp? || c.op.GetTaskOp?
    ensures ReplyForbidden(Decide(cfg, db, c).reply) <==> Lacks(cfg, db, c)
  {
    hide Authorized, Entitled, ReadPath.Scan, ReadPath.ListRows, ReadPath.ShownAll;
    ByEntitlement(cfg, c.ctx);
  }

  lemma EditsForbidden(cfg: Config, db: Db, c: Call)
    requires c.op.LifecycleOp? || c.op.RelateOp? || c.op.CreateTaskOp? || c.op.CompleteTaskOp?
    ensures ReplyForbidden(Decide(cfg, db, c).reply) <==> Lacks(cfg, db, c)
  {
    hide Authorized, Entitled;
    ByEntitlement(cfg, c.ctx);
  }

  lemma MovesForbidden(cfg: Config, db: Db, c: Call)
    requires c.op.TransitionOp? || c.op.DecideOp?
    ensures ReplyForbidden(Decide(cfg, db, c).reply) <==> Lacks(cfg, db, c)
  {
    hide Authorized, Entitled;
    ByEntitlement(cfg, c.ctx);
  }

  lemma WritesForbidden(cfg: Config, db: Db, c: Call)
    requires c.op.CreateOp? || c.op.UpdateOp?
    ensures Lacks(cfg, db, c) ==> ReplyForbidden(Decide(cfg, db, c).reply)
    ensures ReplyOk(Decide(cfg, db, c).reply) ==> !Lacks(cfg, db, c)
  {
    hide Authorized, Entitled, S.ApplyEdits, S.DataFits, ProjectForRead;
    ByEntitlement(cfg, c.ctx);
  }

  /** A call is refused as forbidden exactly when its caller lacks the action it asks for, on the
      resource and record it asks it for; a create or update, also when it names a field that its
      caller may not write. */
  lemma ForbiddenExactlyWhenLacking(cfg: Config, db: Db, c: Call)
    ensures Lacks(cfg, db, c) ==> ReplyForbidden(Decide(cfg, db, c).reply)
    ensures !c.op.CreateOp? && !c.op.UpdateOp? ==>
              (ReplyForbidden(Decide(cfg, db, c).reply) <==> Lacks(cfg, db, c))
    ensures ReplyOk(Decide(cfg, db, c).reply) ==> !Lacks(cfg, db, c)
  {
    hide Decide, Lacks;
    OkIsNotForbidden(Decide(cfg, db, c).reply);
    match c.op {
      case CreateOp(_, _) => WritesForbidden(cfg, db, c);
      case UpdateOp(_, _) => WritesForbidden(cfg, db, c);
      case TransitionOp(_, _, _, _, _) => MovesForbidden(cfg, db, c);
      case DecideOp(_, _, _) => MovesForbidden(cfg, db, c);
      case LifecycleOp(_, _) => EditsForbidden(cfg, db, c);
      case RelateOp(_, _, _, _) => EditsForbidden(cfg, db, c);
      case CreateTaskOp(_, _) => EditsForbidden(cfg, db, c);
      case CompleteTaskOp(_, _) => EditsForbidden(cfg, db, c);
      case _ => ReadsForbidden(cfg, db, c);
    }
  }

  lemma OkIsNotForbidden(r: Reply)
    ensures ReplyOk(r) ==> !ReplyForbidden(r)
  {
  }
}
