/** Nothing is written without the permission for it, and nothing without its audit event. */
module AccessControl {
  import opened Values
  import opened Contracts
  import opened Rbac
  import opened Store
  import opened Machine
  import opened Lawful
  import opened Entitlement
  import AuditReplay
  import ListAgreement
  import ReadPath
  import SchemaInvariant
  import S = Services

  predicate MayActOn(cfg: Config, ctx: AuthContext, action: Action, r: Record) {
    Authorized(cfg, ctx, action, ObjectResource(r.objectType), Some(r))
  }

  /** A declared transition out of the record's state, whose guard the caller passes. */
  ghost predicate MayTake(cfg: Config, ctx: AuthContext, r: Record, gated: bool, to: Option<string>) {
    var wf := WorkflowOf(cfg, ctx.tenantId, r.objectType);
    wf.Some? && exists t | t in wf.value.transitions ::
      && t.from == S.CurrentState(r, wf.value) && Some(t.to) == to && t.requiresApproval == gated
      && Authorized(cfg, ctx, Transition_,
                    if t.guardPermission.Some? then t.guardPermission.value else ObjectResource(r.objectType), Some(r))
  }

  /** The permission each write calls for, on the row as it was before. */
  ghost predicate Permitted(cfg: Config, db: Db, ctx: AuthContext, tx: Tx) {
    match tx
    case NoWrite => true
    case Denial(_) => true
    case InsertRecord(r, _) => Authorized(cfg, ctx, Create, ObjectResource(r.objectType), None)
    case ReplaceRecord(r, e) =>
      && LoadRecord(db, ctx.tenantId, r.id).Some?
      && var o := db.records[r.id];
         (match e.verb
          case RecordUpdated => MayActOn(cfg, ctx, Update, o)
          case RecordArchived => MayActOn(cfg, ctx, Archive, o)
          case RecordRestored => MayActOn(cfg, ctx, Restore, o)
          case _ => MayTake(cfg, ctx, o, false, r.workflowState))
    case InsertRelation(rel, _) =>
      && LoadRecord(db, ctx.tenantId, rel.fromRecord).Some? && LoadRecord(db, ctx.tenantId, rel.toRecord).Some?
      && MayActOn(cfg, ctx, Relate, db.records[rel.fromRecord]) && MayActOn(cfg, ctx, Read, db.records[rel.toRecord])
    case RequestApproval(a, _, _) =>
      && a.relatedRecordId.Some? && LoadRecord(db, ctx.tenantId, a.relatedRecordId.value).Some?
      && MayTake(cfg, ctx, db.records[a.relatedRecordId.value], true, a.targetState)
    case DecideApproval(a, _, _) =>
      && LoadApproval(db, ctx.tenantId, a.id).Some? && !S.SelfDecision(cfg, ctx, a)
      && Authorized(cfg, ctx, Approve, ObjectResource(S.TypeOrBlank(a)), S.ApprovalTarget(db, ctx.tenantId, a))
    case InsertTask(_, _) => Authorized(cfg, ctx, Create, S.TASK_RESOURCE, None)
    case ReplaceTask(t, _) =>
      LoadTask(db, ctx.tenantId, t.id).Some? && S.TaskVisible(cfg, ctx, db.tasks[t.id])
  }

  lemma RecordWritesArePermitted(cfg: Config, db: Db, c: Call)
    requires WellFormed(db) && (c.op.CreateOp? || c.op.UpdateOp? || c.op.LifecycleOp?)
    ensures Permitted(cfg, db, c.ctx, Decide(cfg, db, c).tx)
  {
    hide Authorized, S.ApplyEdits, S.DataFits, S.Defaults;
  }

  lemma TransitionIsPermitted(
    cfg: Config, db: Db, ctx: AuthContext, id: string, key: string, reason: Option<string>, approvalId: string,
    taskId: string, now: int)
    requires WellFormed(db)
    ensures Permitted(cfg, db, ctx, S.TransitionRecord(cfg, db, ctx, id, key, reason, approvalId, taskId, now).tx)
  {
    hide Authorized, S.TakeTransition;
    var found := LoadRecord(db, ctx.tenantId, id);
    if found.Some? && WorkflowOf(cfg, ctx.tenantId, found.value.objectType).Some? {
      var wf := WorkflowOf(cfg, ctx.tenantId, found.value.objectType).value;
      var current := S.CurrentState(found.value, wf);
      var step := TransitionFrom(wf.transitions, current, key);
      if step.Some? && MayTake(cfg, ctx, found.value, step.value.requiresApproval, Some(step.value.to)) {
        TakingIsPermitted(cfg, db, ctx, found.value, step.value, current, reason, approvalId, taskId, now);
      }
    }
  }

  lemma TakingIsPermitted(
    cfg: Config, db: Db, ctx: AuthContext, r: Record, t: Transition, current: string, reason: Option<string>,
    approvalId: string, taskId: string, now: int)
    requires LoadRecord(db, ctx.tenantId, r.id) == Some(r)
    requires MayTake(cfg, ctx, r, t.requiresApproval, Some(t.to))
    ensures Permitted(cfg, db, ctx, S.TakeTransition(db, ctx, r, t, current, reason, approvalId, taskId, now).tx)
  {
    hide MayTake;
  }

  lemma TransitionsArePermitted(cfg: Config, db: Db, c: Call)
    requires WellFormed(db) && c.op.TransitionOp?
    ensures Permitted(cfg, db, c.ctx, Decide(cfg, db, c).tx)
  {
    hide Permitted, WellFormed, S.TransitionRecord;
    var op := c.op;
    TransitionIsPermitted(cfg, db, c.ctx, op.id, op.key, op.reason, op.approvalId, op.taskId, c.now);
  }

  lemma DecisionsArePermitted(cfg: Config, db: Db, c: Call)
    requires WellFormed(db) && (c.op.DecideOp? || c.op.CreateTaskOp? || c.op.CompleteTaskOp? || c.op.RelateOp?)
    ensures Permitted(cfg, db, c.ctx, Decide(cfg, db, c).tx)
  {
    hide Authorized;
  }

  lemma ReadsWriteNothing(cfg: Config, db: Db, c: Call)
    requires c.op.GetOp? || c.op.RelationsOp? || c.op.ListOp? || c.op.ScanOp? || c.op.ReportOp? || c.op.AvailableOp?
             || c.op.GetApprovalOp? || c.op.GetTaskOp?
    ensures Decide(cfg, db, c).tx.NoWrite? || Decide(cfg, db, c).tx.Denial?
  {
    hide Authorized;
  }

  /** Every write had its permission: the action on the record as it was, the guard of a declared
      transition out of its state, approval rights without self-approval, or sight of the task. */
  lemma EveryWriteIsPermitted(cfg: Config, db: Db, c: Call)
    requires WellFormed(db)
    ensures Permitted(cfg, db, c.ctx, Decide(cfg, db, c).tx)
  {
    hide Decide;
    match c.op {
      case CreateOp(_, _) => RecordWritesArePermitted(cfg, db, c);
      case UpdateOp(_, _) => RecordWritesArePermitted(cfg, db, c);
      case LifecycleOp(_, _) => RecordWritesArePermitted(cfg, db, c);
      case TransitionOp(_, _, _, _, _) => TransitionsArePermitted(cfg, db, c);
      case DecideOp(_, _, _) => DecisionsArePermitted(cfg, db, c);
      case RelateOp(_, _, _, _) => DecisionsArePermitted(cfg, db, c);
      case CreateTaskOp(_, _) => DecisionsArePermitted(cfg, db, c);
      case CompleteTaskOp(_, _) => DecisionsArePermitted(cfg, db, c);
      case _ => ReadsWriteNothing(cfg, db, c);
    }
  }

  /** The event, if any, that the transaction writes next to its rows. */
  lemma WritesCarryEvents(cfg: Config, db: Db, ctx: AuthContext, tx: Tx)
    requires WellFormed(db) && Anchored(db) && LawfulTx(cfg, db, ctx, tx) && !tx.NoWrite?
    ensures AuditReplay.Logged(tx).Some?
    ensures var e := AuditReplay.Logged(tx).value; e.tenantId == ctx.tenantId && e.actorId == ctx.actorId
  {
    hide DataLawful, TakableEdge;
  }

  /** The event is of the caller, in its tenant and organization, at the time of the call. */
  predicate ByCaller(e: Event, c: Call) {
    && e.tenantId == c.ctx.tenantId && e.orgId == c.ctx.orgId
    && e.actorType == c.ctx.actorType && e.actorId == c.ctx.actorId && e.timestamp == c.now
  }

  predicate LogsByCaller(cfg: Config, db: Db, c: Call) {
    var log := AuditReplay.Logged(Decide(cfg, db, c).tx);
    log.Some? ==> ByCaller(log.value, c)
  }

  lemma RecordEventsByCaller(cfg: Config, db: Db, c: Call)
    requires c.op.CreateOp? || c.op.UpdateOp? || c.op.LifecycleOp? || c.op.RelateOp?
    ensures LogsByCaller(cfg, db, c)
  {
    hide Authorized, S.ApplyEdits, S.DataFits, ProjectForRead, GrantsFor, InitialState;
  }

  lemma MoveEventsByCaller(cfg: Config, db: Db, c: Call)
    requires c.op.TransitionOp? || c.op.DecideOp?
    ensures LogsByCaller(cfg, db, c)
  {
    hide Authorized;
  }

  lemma TaskEventsByCaller(cfg: Config, db: Db, c: Call)
    requires c.op.CreateTaskOp? || c.op.GetTaskOp? || c.op.CompleteTaskOp? || c.op.GetApprovalOp?
    ensures LogsByCaller(cfg, db, c)
  {
    hide Authorized;
  }

  lemma ReadEventsByCaller(cfg: Config, db: Db, c: Call)
    requires || c.op.GetOp? || c.op.RelationsOp? || c.op.ListOp? || c.op.ScanOp? || c.op.ReportOp? || c.op.AvailableOp?
    ensures LogsByCaller(cfg, db, c)
  {
    hide Authorized, ProjectForRead, ReadPath.ListPage, ReadPath.Scan;
  }

  lemma EventsAreByCaller(cfg: Config, db: Db, c: Call)
    ensures LogsByCaller(cfg, db, c)
  {
    hide LogsByCaller;
    match c.op {
      case CreateOp(_, _) => RecordEventsByCaller(cfg, db, c);
      case UpdateOp(_, _) => RecordEventsByCaller(cfg, db, c);
      case LifecycleOp(_, _) => RecordEventsByCaller(cfg, db, c);
      case RelateOp(_, _, _, _) => RecordEventsByCaller(cfg, db, c);
      case TransitionOp(_, _, _, _, _) => MoveEventsByCaller(cfg, db, c);
      case DecideOp(_, _, _) => MoveEventsByCaller(cfg, db, c);
      case CreateTaskOp(_, _) => TaskEventsByCaller(cfg, db, c);
      case GetTaskOp(_) => TaskEventsByCaller(cfg, db, c);
      case CompleteTaskOp(_, _) => TaskEventsByCaller(cfg, db, c);
      case GetApprovalOp(_) => TaskEventsByCaller(cfg, db, c);
      case _ => ReadEventsByCaller(cfg, db, c);
    }
  }

  /** In every run, a call that changes any table appends exactly one event to the log, in its caller's
      tenant, organization and name and at its time; a call that appends none leaves every table as it
      was. */
  lemma MutationsAreAudited(cfg: Config, calls: seq<Call>, c: Call)
    requires ConfigValid(cfg)
    ensures var before, after := Run(cfg, calls), Step(cfg, Run(cfg, calls), c);
            || after == before
            || (&& |after.audit| == |before.audit| + 1 && after.audit[..|before.audit|] == before.audit
                && ByCaller(after.audit[|before.audit|], c))
  {
    hide Decide, WellFormed, Anchored, LawfulTx;
    var db := Run(cfg, calls);
    var tx := Decide(cfg, db, c).tx;
    RunIsWellFormed(cfg, calls);
    EveryCallIsLawful(cfg, db, c);
    if !tx.NoWrite? {
      WritesCarryEvents(cfg, db, c.ctx, tx);
      EventsAreByCaller(cfg, db, c);
      AuditReplay.CommitAppends(db, tx);
    }
  }

  // ---- what replies show --------------------------------------------------------------------

  /** A grant the caller holds that takes in reading the record, and whose field rule lists the field
      as allowed or has a list of denied ones without it. */
  ghost predicate FieldGrant(cfg: Config, ctx: AuthContext, g: Grant, r: Record, key: string) {
    Covers(cfg, ctx, g, Read, "object:" + r.objectType, Some(r))
    && g.fields.Some?
    && match g.fields.value
       case AllowFields(allowed) => key in allowed
       case DenyFields(denied) => key !in denied
  }

  /** The type's field of that key is restricted. */
  predicate RestrictedIn(cfg: Config, r: Record, key: string) {
    var otype := LoadType(cfg, r.tenantId, r.objectType);
    otype.Some? && var f := FieldOf(otype.value.fields, key); f.Some? && f.value.restricted
  }

  /** The system and platform admins see every field; others the unrestricted ones and those a grant
      lets them see. */
  ghost predicate MaySee(cfg: Config, ctx: AuthContext, r: Record, key: string) {
    ctx.actorType == System || ctx.isPlatformAdmin || !RestrictedIn(cfg, r, key)
    || exists g :: Holding(cfg, ctx, g) && FieldGrant(cfg, ctx, g, r, key)
  }

  /** The record is a stored one of the caller's tenant, with exactly the fields the caller may see. */
  ghost predicate ShownProperly(cfg: Config, db: Db, ctx: AuthContext, shown: Record) {
    var stored := LoadRecord(db, ctx.tenantId, shown.id);
    && stored.Some? && shown.(data := stored.value.data) == stored.value
    && forall k ::
         Lookup(shown.data, k) == if MaySee(cfg, ctx, stored.value, k) then Lookup(stored.value.data, k) else None
  }

  /** Every record a reply carries. */
  function RecordsIn(reply: Reply): seq<Record> {
    match reply
    case RecordReply(Ok(r)) => [r]
    case ListReply(Ok(listing)) => listing.items
    case RowsReply(Ok(rows)) => rows
    case _ => []
  }

  lemma ProjectionsShowProperly(cfg: Config, db: Db, ctx: AuthContext, r: Record, otype: ObjectType)
    requires LoadRecord(db, ctx.tenantId, r.id) == Some(r) && LoadType(cfg, ctx.tenantId, r.objectType) == Some(otype)
    ensures ShownProperly(cfg, db, ctx, ProjectForRead(cfg, ctx, r, otype))
  {
    hide GrantApplies, Covers, RulePermits, FieldOf, Holding, EffectiveGrants, FieldGrant, Project;
    var grants := ReadGrants(cfg, ctx, ObjectResource(r.objectType), r);
    forall k ensures MaySee(cfg, ctx, r, k) <==> Trusted(ctx) || FieldPermitted(grants, otype, k) {
      forall g ensures Holding(cfg, ctx, g) && FieldGrant(cfg, ctx, g, r, k)
                       <==> g in grants && g.fields.Some? && RulePermits(g.fields.value, k) {
        FieldGrantMeans(cfg, ctx, g, r, k);
      }
    }
  }

  lemma FieldGrantMeans(cfg: Config, ctx: AuthContext, g: Grant, r: Record, key: string)
    ensures Holding(cfg, ctx, g) && FieldGrant(cfg, ctx, g, r, key)
            <==> g in ReadGrants(cfg, ctx, ObjectResource(r.objectType), r)
                 && g.fields.Some? && RulePermits(g.fields.value, key)
  {
    hide GrantApplies, Covers;
    GrantsComeFromOwnRoles(cfg.roles, ctx, g);
    CoversMeans(cfg, ctx, g, Read, ObjectResource(r.objectType), Some(r));
  }

  lemma FetchesShowProperly(cfg: Config, db: Db, ctx: AuthContext, id: string, now: int)
    requires WellFormed(db) && S.GetRecord(cfg, db, ctx, id, now).reply.Ok?
    ensures var shown := S.GetRecord(cfg, db, ctx, id, now).reply.value;
            shown.id == id && ShownProperly(cfg, db, ctx, shown) && MayActOn(cfg, ctx, Read, db.records[id])
  {
    hide ShownProperly, GrantApplies, Restricted;
    ProjectionsShowProperly(cfg, db, ctx, db.records[id], LoadType(cfg, ctx.tenantId, db.records[id].objectType).value);
  }

  lemma WritesShowProperly(cfg: Config, db: Db, c: Call, shown: Record)
    requires WellFormed(db) && (c.op.CreateOp? || c.op.UpdateOp?)
    requires Decide(cfg, db, c).reply == RecordReply(Ok(shown))
    ensures ShownProperly(cfg, Step(cfg, db, c), c.ctx, shown)
  {
    hide ShownProperly, Authorized, S.ApplyEdits, S.DataFits, S.Defaults, Project, GrantApplies;
    var tx := Decide(cfg, db, c).tx;
    ProjectionsShowProperly(cfg, Step(cfg, db, c), c.ctx, tx.record,
                            LoadType(cfg, c.ctx.tenantId, tx.record.objectType).value);
  }

  lemma ReadsShowProperly(cfg: Config, db: Db, c: Call, shown: Record)
    requires WellFormed(db) && (c.op.GetOp? || c.op.ListOp? || c.op.ScanOp?)
    requires shown in RecordsIn(Decide(cfg, db, c).reply)
    ensures Step(cfg, db, c) == db && ShownProperly(cfg, db, c.ctx, shown)
    ensures MayActOn(cfg, c.ctx, Read, db.records[shown.id])
  {
    hide ShownProperly, ReadPath.ListPage, ReadPath.Scan, Authorized, WellFormed;
    match c.op {
      case GetOp(id) => FetchesShowProperly(cfg, db, c.ctx, id, c.now);
      case ListOp(objectType, filter) =>
        ListAgreement.ListedItemsAreGettable(cfg, db, c.ctx, objectType, filter, c.now, shown);
      case ScanOp(objectType, filters, includeArchived) =>
        ListAgreement.ScannedItemsAreGettable(cfg, db, c.ctx, objectType, filters, includeArchived, c.now, shown);
    }
    FetchesShowProperly(cfg, db, c.ctx, shown.id, c.now);
  }

  /** Every record that any call replies with is the stored one with exactly the fields its caller
      may see. It is one the caller may read, except that create and update also reply to a caller
      who may not read the record, with just its unrestricted fields. */
  lemma NothingHiddenIsShown(cfg: Config, db: Db, c: Call, shown: Record)
    requires WellFormed(db) && shown in RecordsIn(Decide(cfg, db, c).reply)
    ensures ShownProperly(cfg, Step(cfg, db, c), c.ctx, shown)
    ensures var stored := Step(cfg, db, c).records[shown.id];
            MayActOn(cfg, c.ctx, Read, stored)
            || ((c.op.CreateOp? || c.op.UpdateOp?)
                && forall k :: MaySee(cfg, c.ctx, stored, k) <==> !RestrictedIn(cfg, stored, k))
  {
    hide Decide, Step, MayActOn, RestrictedIn, MaySee, ShownProperly;
    ShowsProperly(cfg, db, c, shown);
    var stored := Step(cfg, db, c).records[shown.id];
    if !MayActOn(cfg, c.ctx, Read, stored) {
      UnreadableShowsUnrestricted(cfg, c.ctx, stored);
    }
  }

  lemma ShowsProperly(cfg: Config, db: Db, c: Call, shown: Record)
    requires WellFormed(db) && shown in RecordsIn(Decide(cfg, db, c).reply)
    ensures ShownProperly(cfg, Step(cfg, db, c), c.ctx, shown)
    ensures shown.id in Step(cfg, db, c).records
    ensures MayActOn(cfg, c.ctx, Read, Step(cfg, db, c).records[shown.id]) || c.op.CreateOp? || c.op.UpdateOp?
  {
    hide Decide, Step, MayActOn;
    if c.op.CreateOp? || c.op.UpdateOp? {
      RecordRepliesAreRecords(cfg, db, c);
      WritesShowProperly(cfg, db, c, shown);
    } else {
      OnlyTheseShowRecords(cfg, db, c);
      ReadsShowProperly(cfg, db, c, shown);
    }
  }

  /** Who may not read a record sees just its unrestricted fields. */
  lemma UnreadableShowsUnrestricted(cfg: Config, ctx: AuthContext, r: Record)
    requires !MayActOn(cfg, ctx, Read, r)
    ensures forall k :: MaySee(cfg, ctx, r, k) <==> !RestrictedIn(cfg, r, k)
  {
    hide GrantApplies, Covers, RestrictedIn;
    forall g, k ensures !(Holding(cfg, ctx, g) && FieldGrant(cfg, ctx, g, r, k)) {
      GrantsComeFromOwnRoles(cfg.roles, ctx, g);
      CoversMeans(cfg, ctx, g, Read, ObjectResource(r.objectType), Some(r));
    }
  }

  lemma RecordRepliesAreRecords(cfg: Config, db: Db, c: Call)
    requires c.op.CreateOp? || c.op.UpdateOp?
    ensures Decide(cfg, db, c).reply.RecordReply?
  {
    hide S.CreateRecord, S.UpdateRecord;
  }

  lemma OnlyTheseShowRecords(cfg: Config, db: Db, c: Call)
    requires RecordsIn(Decide(cfg, db, c).reply) != []
    ensures c.op.CreateOp? || c.op.UpdateOp? || c.op.GetOp? || c.op.ListOp? || c.op.ScanOp?
  {
    hide S.CreateRecord, S.UpdateRecord, S.GetRecord, S.ListRecords, S.ScanRecords, S.RunReportDef, S.TransitionRecord,
      S.DecideApproval, S.CreateTask, S.GetTask, S.CompleteTask, S.Relate, S.GetRelations, S.SetLifecycle,
      S.AvailableTransitions, S.GetApproval;
  }

  /** The exception is real: in every run, a caller who may update a record has all its
      unrestricted fields from an empty update, whether or not it may read the record. */
  lemma EmptyUpdatesShowRecords(cfg: Config, calls: seq<Call>, ctx: AuthContext, id: string, now: int)
    requires ConfigValid(cfg)
    requires var db := Run(cfg, calls);
             LoadRecord(db, ctx.tenantId, id).Some? && MayActOn(cfg, ctx, Update, db.records[id])
    ensures var r := Run(cfg, calls).records[id];
            var reply := Decide(cfg, Run(cfg, calls), Call(ctx, now, UpdateOp(id, []))).reply;
            reply.RecordReply? && reply.record.Ok?
            && forall k | k in r.data && !RestrictedIn(cfg, r, k) ::
               Lookup(reply.record.value.data, k) == Some(r.data[k])
  {
    hide Authorized, FieldOf, Project;
    SchemaInvariant.StoredDataAlwaysLawful(cfg, calls);
    var db := Run(cfg, calls);
    var r := db.records[id];
    assert S.ApplyEdits(LoadType(cfg, r.tenantId, r.objectType).value,
                        GrantsFor(cfg, ctx, Update, ObjectResource(r.objectType), Some(r)), r.data, [], true)
        == S.Applied(r.data);
  }
}
