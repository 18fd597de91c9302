/** What each service call decides, as a function of the stored tables: the specification the
    kernel's methods are proved against. A call commits at most one transaction. */
module Services {
  import opened Values
  import opened Contracts
  import opened Rbac
  import opened Store
  import opened ReadPath
  import opened Analytics

  // ---- audit events ----------------------------------------------------------------------

  /** `event_from`: an event carries the caller's tenant, org and identity. */
  function EventFrom(
    ctx: AuthContext, verb: Verb, targetType: Option<string>, targetId: Option<string>,
    before: Option<Value>, after: Option<Value>, now: int): Event
  {
    Event(ctx.tenantId, ctx.orgId, ctx.actorType, ctx.actorId, verb, targetType, targetId,
          before, after, None, None, now)
  }

  function DenialReason(what: string, resource: string): string {
    "denied " + what + " on " + resource
  }

  function Deny(ctx: AuthContext, what: string, resource: string, targetId: Option<string>, now: int): Tx {
    Denial(EventFrom(ctx, PermissionDenied, Some(resource), targetId, None, None, now)
           .(reason := Some(DenialReason(what, resource))))
  }

  function TargetId(target: Option<Record>): Option<string> {
    if target.Some? then Some(target.value.id) else None
  }

  /** The transaction of a failed `authorize`. */
  function DenyAction(ctx: AuthContext, action: Action, resource: string, target: Option<Record>, now: int): Tx {
    Deny(ctx, ActionName(action), resource, TargetId(target), now)
  }

  const WORKFLOW_STATE := "workflow_state"
  const WRITE_FIELD := "write_field"
  const APPROVAL_RESOURCE := "approval"
  const TASK_RESOURCE := "task"

  function OptStr(s: Option<string>): Value {
    if s.Some? then Str(s.value) else Null
  }

  /** `{"workflow_state": state}`. */
  function StateJson(state: Option<string>): Value {
    Obj(map[WORKFLOW_STATE := OptStr(state)])
  }

  // ---- records -----------------------------------------------------------------------------

  datatype NewRecord = NewRecord(objectType: string, data: seq<(string, Value)>, workspaceId: Option<string>)

  /** The defaults a new record starts from, in field order. */
  function Defaults(fields: seq<FieldDef>): Fields {
    if fields == [] then map[]
    else
      var last := fields[|fields| - 1];
      var rest := Defaults(fields[..|fields| - 1]);
      if last.default.Some? then rest[last.key := last.default.value] else rest
  }

  /** How a batch of field edits ends: applied, or stopped at the first bad or denied field. */
  datatype Edits = Applied(data: Fields) | BadField | DeniedField

  /** On update an explicit null clears the field; on create it is stored. */
  function SetField(data: Fields, key: string, value: Value, clearing: bool): Fields {
    if clearing && value.Null? then data - {key} else data[key := value]
  }

  function ApplyEdits(
    otype: ObjectType, grants: seq<Grant>, data: Fields, edits: seq<(string, Value)>, clearing: bool): Edits
  {
    if edits == [] then Applied(data)
    else
      var before := ApplyEdits(otype, grants, data, edits[..|edits| - 1], clearing);
      var (key, value) := edits[|edits| - 1];
      if !before.Applied? then before
      else
        var field := FieldOf(otype.fields, key);
        if field.None? || field.value.system then BadField
        else if field.value.restricted && !FieldPermitted(grants, otype, key) then DeniedField
        else Applied(SetField(before.data, key, value, clearing))
  }

  /** `validate_against_type`: every declared field's value, or its absence, fits. */
  predicate DataFits(otype: ObjectType, data: Fields, isTimestamp: string -> bool) {
    forall f | f in otype.fields :: ValueFits(f, if f.key in data then data[f.key] else Null, isTimestamp)
  }

  function CreateRecord(cfg: Config, db: Db, ctx: AuthContext, new_: NewRecord, id: string, now: int)
    : Outcome<Record>
  {
    var resource := ObjectResource(new_.objectType);
    if !Authorized(cfg, ctx, Create, resource, None) then
      Outcome(DenyAction(ctx, Create, resource, None, now), Err(Forbidden))
    else
      match LoadType(cfg, ctx.tenantId, new_.objectType)
      case None => Outcome(NoWrite, Err(NotFound))
      case Some(otype) =>
        var grants := GrantsFor(cfg, ctx, Create, resource, None);
        match ApplyEdits(otype, grants, Defaults(otype.fields), new_.data, false)
        case BadField => Outcome(NoWrite, Err(Validation))
        case DeniedField => Outcome(Deny(ctx, WRITE_FIELD, resource, None, now), Err(Forbidden))
        case Applied(data) =>
          if !DataFits(otype, data, cfg.isTimestamp) then Outcome(NoWrite, Err(Validation))
          else if id in db.records then Outcome(NoWrite, Err(Conflict))
          else
            var r := Record(id, new_.objectType, ctx.tenantId, ctx.orgId,
                            if new_.workspaceId.Some? then new_.workspaceId else ctx.workspaceId,
                            data, Active, InitialState(cfg, ctx.tenantId, new_.objectType),
                            ctx.actorId, now, now, None);
            Outcome(InsertRecord(r, EventFrom(ctx, RecordCreated, Some(new_.objectType), Some(id),
                                              None, Some(Obj(data)), now)),
                    Ok(ProjectForRead(cfg, ctx, r, otype)))
  }

  function GetRecord(cfg: Config, db: Db, ctx: AuthContext, id: string, now: int): Outcome<Record> {
    match LoadRecord(db, ctx.tenantId, id)
    case None => Outcome(NoWrite, Err(NotFound))
    case Some(r) =>
      var resource := ObjectResource(r.objectType);
      if !Authorized(cfg, ctx, Read, resource, Some(r)) then
        Outcome(DenyAction(ctx, Read, resource, Some(r), now), Err(Forbidden))
      else
        match LoadType(cfg, ctx.tenantId, r.objectType)
        case None => Outcome(NoWrite, Err(NotFound))
        case Some(otype) => Outcome(NoWrite, Ok(ProjectForRead(cfg, ctx, r, otype)))
  }

  function UpdateRecord(
    cfg: Config, db: Db, ctx: AuthContext, id: string, patch: seq<(string, Value)>, now: int): Outcome<Record>
  {
    match LoadRecord(db, ctx.tenantId, id)
    case None => Outcome(NoWrite, Err(NotFound))
    case Some(r) =>
      var resource := ObjectResource(r.objectType);
      if !Authorized(cfg, ctx, Update, resource, Some(r)) then
        Outcome(DenyAction(ctx, Update, resource, Some(r), now), Err(Forbidden))
      else
        match LoadType(cfg, ctx.tenantId, r.objectType)
        case None => Outcome(NoWrite, Err(NotFound))
        case Some(otype) =>
          var grants := GrantsFor(cfg, ctx, Update, resource, Some(r));
          match ApplyEdits(otype, grants, r.data, patch, true)
          case BadField => Outcome(NoWrite, Err(Validation))
          case DeniedField => Outcome(Deny(ctx, WRITE_FIELD, resource, Some(id), now), Err(Forbidden))
          case Applied(data) =>
            if !DataFits(otype, data, cfg.isTimestamp) then Outcome(NoWrite, Err(Validation))
            else
              var r' := r.(data := data, updatedAt := now);
              Outcome(ReplaceRecord(r', EventFrom(ctx, RecordUpdated, Some(r.objectType), Some(id),
                                                  Some(Obj(r.data)), Some(Obj(data)), now)),
                      Ok(ProjectForRead(cfg, ctx, r', otype)))
  }

  function SetLifecycle(cfg: Config, db: Db, ctx: AuthContext, id: string, to: Lifecycle, now: int): Outcome<()> {
    match LoadRecord(db, ctx.tenantId, id)
    case None => Outcome(NoWrite, Err(NotFound))
    case Some(r) =>
      var resource := ObjectResource(r.objectType);
      var action := if to.Archived? then Archive else Restore;
      if !Authorized(cfg, ctx, action, resource, Some(r)) then
        Outcome(DenyAction(ctx, action, resource, Some(r), now), Err(Forbidden))
      else
        var r' := r.(lifecycle := to, archivedAt := if to.Archived? then Some(now) else None, updatedAt := now);
        Outcome(ReplaceRecord(r', EventFrom(ctx, if to.Archived? then RecordArchived else RecordRestored,
                                            Some(r.objectType), Some(id), None, None, now)),
                Ok(()))
  }

  // ---- relations -----------------------------------------------------------------------------

  datatype Edge = Edge(id: string, relationType: string, outgoing: bool, recordId: string, createdAt: int)

  function EdgeSeenFrom(rel: Relation, recordId: string): Edge {
    var outgoing := rel.fromRecord == recordId;
    Edge(rel.id, rel.relationType, outgoing, if outgoing then rel.toRecord else rel.fromRecord, rel.createdAt)
  }

  function EdgesSeenFrom(rels: seq<Relation>, recordId: string): (r: seq<Edge>)
    ensures |r| == |rels|
    ensures forall i | 0 <= i < |rels| :: r[i] == EdgeSeenFrom(rels[i], recordId)
  {
    if rels == [] then []
    else EdgesSeenFrom(rels[..|rels| - 1], recordId) + [EdgeSeenFrom(rels[|rels| - 1], recordId)]
  }

  function Relate(
    cfg: Config, db: Db, ctx: AuthContext, fromId: string, toId: string, relationType: string, id: string,
    now: int): Outcome<Edge>
  {
    var from, to := LoadRecord(db, ctx.tenantId, fromId), LoadRecord(db, ctx.tenantId, toId);
    if from.None? || to.None? then Outcome(NoWrite, Err(NotFound))
    else
      var fromResource, toResource := ObjectResource(from.value.objectType), ObjectResource(to.value.objectType);
      if !Authorized(cfg, ctx, Action.Relate, fromResource, from) then
        Outcome(DenyAction(ctx, Action.Relate, fromResource, from, now), Err(Forbidden))
      else if !Authorized(cfg, ctx, Read, toResource, to) then
        Outcome(DenyAction(ctx, Read, toResource, to, now), Err(Forbidden))
      else
        Outcome(InsertRelation(Relation(id, ctx.tenantId, fromId, toId, relationType, ctx.actorId, now),
                               EventFrom(ctx, RelationCreated, Some(from.value.objectType), Some(fromId), None,
                                         Some(Obj(map["to" := Str(toId), "type" := Str(relationType)])), now)),
                Ok(Edge(id, relationType, true, toId, now)))
  }

  function GetRelations(cfg: Config, db: Db, ctx: AuthContext, id: string, now: int): Outcome<seq<Edge>> {
    match LoadRecord(db, ctx.tenantId, id)
    case None => Outcome(NoWrite, Err(NotFound))
    case Some(r) =>
      var resource := ObjectResource(r.objectType);
      if !Authorized(cfg, ctx, Read, resource, Some(r)) then
        Outcome(DenyAction(ctx, Read, resource, Some(r), now), Err(Forbidden))
      else Outcome(NoWrite, Ok(EdgesSeenFrom(RelationsOf(db.relations, ctx.tenantId, id), id)))
  }

  // ---- lists and reports -----------------------------------------------------------------------

  function ListRecords(
    cfg: Config, db: Db, ctx: AuthContext, objectType: string, filter: RecordFilter, now: int): Outcome<Listing>
  {
    var resource := ObjectResource(objectType);
    if !Authorized(cfg, ctx, Search, resource, None) then
      Outcome(DenyAction(ctx, Search, resource, None, now), Err(Forbidden))
    else
      match LoadType(cfg, ctx.tenantId, objectType)
      case None => Outcome(NoWrite, Err(NotFound))
      case Some(otype) => Outcome(NoWrite, ListPage(cfg, db, ctx, otype, objectType, filter))
  }

  function ScanRecords(
    cfg: Config, db: Db, ctx: AuthContext, objectType: string, filters: seq<FieldFilter>, includeArchived: bool,
    now: int): Outcome<seq<Record>>
  {
    var resource := ObjectResource(objectType);
    if !Authorized(cfg, ctx, Search, resource, None) then
      Outcome(DenyAction(ctx, Search, resource, None, now), Err(Forbidden))
    else
      match LoadType(cfg, ctx.tenantId, objectType)
      case None => Outcome(NoWrite, Err(NotFound))
      case Some(otype) => Outcome(NoWrite, Ok(Scan(cfg, db, ctx, otype, objectType, filters, includeArchived)))
  }

  /** Reports scan with the default filter, which skips archived records. */
  function RunReportDef(cfg: Config, db: Db, ctx: AuthContext, def: ReportDef, now: int): Outcome<ReportResult> {
    var scan := ScanRecords(cfg, db, ctx, def.objectType, def.filters, false, now);
    match scan.reply
    case Err(code) => Outcome(scan.tx, Err(code))
    case Ok(rows) => Outcome(scan.tx, Ok(Report(rows, def, cfg.render)))
  }

  // ---- workflow transitions -----------------------------------------------------------------------

  datatype TransitionResult = TransitionResult(recordId: string, from: string, to: string, approvalId: Option<string>)

  /** The state a record counts as being in: its own, or else the workflow's initial one. */
  function CurrentState(r: Record, wf: Workflow): string {
    if r.workflowState.Some? then r.workflowState.value else wf.initialState
  }

  function AvailableTransitions(cfg: Config, db: Db, ctx: AuthContext, id: string, now: int)
    : Outcome<seq<Transition>>
  {
    match LoadRecord(db, ctx.tenantId, id)
    case None => Outcome(NoWrite, Err(NotFound))
    case Some(r) =>
      var resource := ObjectResource(r.objectType);
      if !Authorized(cfg, ctx, Read, resource, Some(r)) then
        Outcome(DenyAction(ctx, Read, resource, Some(r), now), Err(Forbidden))
      else if LoadType(cfg, ctx.tenantId, r.objectType).None? then Outcome(NoWrite, Err(NotFound))
      else
        match WorkflowOf(cfg, ctx.tenantId, r.objectType)
        case None => Outcome(NoWrite, Ok([]))
        case Some(wf) => Outcome(NoWrite, Ok(AvailableFrom(wf.transitions, CurrentState(r, wf))))
  }

  function PendingApproval(
    ctx: AuthContext, r: Record, t: Transition, current: string, id: string, now: int): Approval
  {
    Approval(id, ctx.tenantId, ctx.orgId, Pending, t.approvalPolicy, ctx.actorId, None, None,
             Some(r.objectType), Some(r.id), Some(t.key), Some(t.to),
             Obj(map["from" := Str(current), "to" := Str(t.to)]), now, None)
  }

  function ApprovalTask(
    ctx: AuthContext, r: Record, t: Transition, id: string, approvalId: string, now: int): Task
  {
    Task(id, ctx.tenantId, ctx.orgId, APPROVAL_RESOURCE, "Approve: " + t.label_, None, Open,
         Some(r.objectType), Some(r.id),
         Obj(map[APPROVAL_ID := Str(approvalId), "transition" := Str(t.key)]), ctx.actorId, now, now)
  }

  /** Once permitted, a transition either asks for approval or moves the record. */
  function TakeTransition(
    db: Db, ctx: AuthContext, r: Record, t: Transition, current: string, reason: Option<string>,
    approvalId: string, taskId: string, now: int): Outcome<TransitionResult>
  {
    if !t.requiresApproval then
      Outcome(ReplaceRecord(
                r.(workflowState := Some(t.to), updatedAt := now),
                EventFrom(ctx, Transitioned, Some(r.objectType), Some(r.id),
                          Some(StateJson(Some(current))), Some(StateJson(Some(t.to))), now)
                .(reason := reason)),
              Ok(TransitionResult(r.id, current, t.to, None)))
    else if approvalId in db.approvals || taskId in db.tasks then Outcome(NoWrite, Err(Conflict))
    else
      Outcome(RequestApproval(
                PendingApproval(ctx, r, t, current, approvalId, now),
                ApprovalTask(ctx, r, t, taskId, approvalId, now),
                EventFrom(ctx, TransitionRequested, Some(r.objectType), Some(r.id),
                          Some(Obj(map["state" := Str(current)])),
                          Some(Obj(map["requested_state" := Str(t.to)])), now)
                .(approvalId := Some(approvalId), reason := reason)),
              Ok(TransitionResult(r.id, current, t.to, Some(approvalId))))
  }

  function TransitionRecord(
    cfg: Config, db: Db, ctx: AuthContext, id: string, key: string, reason: Option<string>,
    approvalId: string, taskId: string, now: int): Outcome<TransitionResult>
  {
    match LoadRecord(db, ctx.tenantId, id)
    case None => Outcome(NoWrite, Err(NotFound))
    case Some(r) =>
      if LoadType(cfg, ctx.tenantId, r.objectType).None? then Outcome(NoWrite, Err(NotFound))
      else
        match WorkflowOf(cfg, ctx.tenantId, r.objectType)
        case None => Outcome(NoWrite, Err(FailedPrecondition))
        case Some(wf) =>
          var current := CurrentState(r, wf);
          match TransitionFrom(wf.transitions, current, key)
          case None => Outcome(NoWrite, Err(FailedPrecondition))
          case Some(t) =>
            var guard := if t.guardPermission.Some? then t.guardPermission.value else ObjectResource(r.objectType);
            if !Authorized(cfg, ctx, Transition_, guard, Some(r)) then
              Outcome(DenyAction(ctx, Transition_, guard, Some(r), now), Err(Forbidden))
            else TakeTransition(db, ctx, r, t, current, reason, approvalId, taskId, now)
  }

  // ---- approvals ---------------------------------------------------------------------------------

  function GetApproval(cfg: Config, db: Db, ctx: AuthContext, id: string, now: int): Outcome<Approval> {
    if !Authorized(cfg, ctx, Read, APPROVAL_RESOURCE, None) then
      Outcome(DenyAction(ctx, Read, APPROVAL_RESOURCE, None, now), Err(Forbidden))
    else
      match LoadApproval(db, ctx.tenantId, id)
      case None => Outcome(NoWrite, Err(NotFound))
      case Some(a) => Outcome(NoWrite, Ok(a))
  }

  /** The record a decision is about, if it is stored in the tenant. */
  function ApprovalTarget(db: Db, tenantId: string, a: Approval): Option<Record> {
    if a.relatedRecordId.Some? then LoadRecord(db, tenantId, a.relatedRecordId.value) else None
  }

  function TypeOrBlank(a: Approval): string {
    if a.relatedObjectType.Some? then a.relatedObjectType.value else ""
  }

  /** Separation of duties: when switched on, an untrusted requester may not decide. */
  predicate SelfDecision(cfg: Config, ctx: AuthContext, a: Approval) {
    cfg.separationOfDuties && a.requestedBy == ctx.actorId && !Trusted(ctx)
  }

  /** The approval row once decided. */
  function Decided(ctx: AuthContext, a: Approval, approved: bool, reason: Option<string>, now: int): Approval {
    a.(status := if approved then Approved else Rejected, decidedBy := Some(ctx.actorId),
       decisionReason := reason, decidedAt := Some(now))
  }

  /** The audit event of a decision; approving without a related record and target logs none. */
  function DecisionEvent(
    ctx: AuthContext, a: Approval, target: Option<Record>, approved: bool, reason: Option<string>, now: int)
    : Option<Event>
  {
    if !approved then
      Some(EventFrom(ctx, ApprovalRejected, Some(TypeOrBlank(a)), a.relatedRecordId, None, None, now)
           .(approvalId := Some(a.id), reason := reason))
    else if a.relatedRecordId.Some? && a.targetState.Some? then
      Some(EventFrom(ctx, Transitioned, Some(TypeOrBlank(a)), a.relatedRecordId,
                     Some(StateJson(if target.Some? then target.value.workflowState else None)),
                     Some(StateJson(a.targetState)), now)
           .(approvalId := Some(a.id), reason := reason))
    else None
  }

  /** The record an approval moves: straight to the target state, whatever state it is in. */
  function MovedRecord(a: Approval, target: Option<Record>, approved: bool, now: int): Option<Record> {
    if approved && a.targetState.Some? && target.Some?
    then Some(target.value.(workflowState := a.targetState, updatedAt := now))
    else None
  }

  function DecideApproval(
    cfg: Config, db: Db, ctx: AuthContext, id: string, approved: bool, reason: Option<string>, now: int)
    : Outcome<Approval>
  {
    match LoadApproval(db, ctx.tenantId, id)
    case None => Outcome(NoWrite, Err(NotFound))
    case Some(a) =>
      if !a.status.Pending? then Outcome(NoWrite, Err(FailedPrecondition))
      else if SelfDecision(cfg, ctx, a) then
        Outcome(Deny(ctx, ActionName(Approve), APPROVAL_RESOURCE, Some(id), now), Err(Forbidden))
      else
        var target := ApprovalTarget(db, ctx.tenantId, a);
        var resource := ObjectResource(TypeOrBlank(a));
        if !Authorized(cfg, ctx, Approve, resource, target) then
          Outcome(DenyAction(ctx, Approve, resource, target, now), Err(Forbidden))
        else
          Outcome(Tx.DecideApproval(Decided(ctx, a, approved, reason, now),
                                    MovedRecord(a, target, approved, now),
                                    DecisionEvent(ctx, a, target, approved, reason, now)),
                  Ok(Decided(ctx, a, approved, reason, now)))
  }

  // ---- tasks -------------------------------------------------------------------------------------

  datatype NewTask = NewTask(
    kind: string, title: string, assigneeId: Option<string>, relatedObjectType: Option<string>,
    relatedRecordId: Option<string>, data: Value)

  /** Broad readers see every task; others see what is assigned to them or made by them. */
  predicate TaskVisible(cfg: Config, ctx: AuthContext, t: Task) {
    || Authorized(cfg, ctx, Read, TASK_RESOURCE, None)
    || t.assigneeId == Some(ctx.actorId)
    || t.createdBy == ctx.actorId
  }

  function GetTask(cfg: Config, db: Db, ctx: AuthContext, id: string, now: int): Outcome<Task> {
    match LoadTask(db, ctx.tenantId, id)
    case None => Outcome(NoWrite, Err(NotFound))
    case Some(t) =>
      if TaskVisible(cfg, ctx, t) then Outcome(NoWrite, Ok(t))
      else Outcome(Deny(ctx, ActionName(Read), TASK_RESOURCE, Some(id), now), Err(Forbidden))
  }

  function CreateTask(cfg: Config, db: Db, ctx: AuthContext, new_: NewTask, id: string, now: int): Outcome<Task> {
    if !Authorized(cfg, ctx, Create, TASK_RESOURCE, None) then
      Outcome(DenyAction(ctx, Create, TASK_RESOURCE, None, now), Err(Forbidden))
    else if id in db.tasks then Outcome(NoWrite, Err(Conflict))
    else
      var t := Task(id, ctx.tenantId, ctx.orgId, new_.kind, new_.title, new_.assigneeId, Open,
                    new_.relatedObjectType, new_.relatedRecordId, new_.data, ctx.actorId, now, now);
      Outcome(InsertTask(t, EventFrom(ctx, TaskCreated, Some(TASK_RESOURCE), Some(id), None,
                                      Some(Obj(map["kind" := Str(new_.kind), "title" := Str(new_.title)])), now)),
              Ok(t))
  }

  function StatusText(s: TaskStatus): string {
    match s
    case Open => "open"
    case InProgress => "in_progress"
    case Done => "done"
    case Cancelled => "cancelled"
    case Other(text) => text
  }

  function CompleteTask(cfg: Config, db: Db, ctx: AuthContext, id: string, status: TaskStatus, now: int)
    : Outcome<Task>
  {
    if !status.Done? && !status.Cancelled? then Outcome(NoWrite, Err(Validation))
    else
      var seen := GetTask(cfg, db, ctx, id, now);
      match seen.reply
      case Err(_) => seen
      case Ok(t) =>
        if !t.status.Open? && !t.status.InProgress? then Outcome(NoWrite, Err(FailedPrecondition))
        else
          var t' := t.(status := status, updatedAt := now);
          Outcome(ReplaceTask(t', EventFrom(ctx, TaskUpdated, Some(TASK_RESOURCE), Some(id),
                                            Some(Obj(map["status" := Str(StatusText(t.status))])),
                                            Some(Obj(map["status" := Str(StatusText(status))])), now)),
                  Ok(t'))
  }
}
