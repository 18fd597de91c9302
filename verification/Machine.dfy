/** Runs of the kernel: any sequence of service calls by any tenants, from empty tables. */
module Machine {
  import opened Values
  import opened Contracts
  import opened Rbac
  import opened Store
  import opened ReadPath
  import opened Analytics
  import S = Services

  datatype Op =
    | CreateOp(new_: S.NewRecord, id: string)
    | GetOp(id: string)
    | UpdateOp(id: string, patch: seq<(string, Value)>)
    | LifecycleOp(id: string, to: Lifecycle)
    | RelateOp(fromId: string, toId: string, relationType: string, id: string)
    | RelationsOp(id: string)
    | ListOp(objectType: string, filter: RecordFilter)
    | ScanOp(objectType: string, filters: seq<FieldFilter>, includeArchived: bool)
    | ReportOp(def: ReportDef)
    | AvailableOp(id: string)
    | TransitionOp(id: string, key: string, reason: Option<string>, approvalId: string, taskId: string)
    | GetApprovalOp(id: string)
    | DecideOp(id: string, approved: bool, reason: Option<string>)
    | CreateTaskOp(task: S.NewTask, id: string)
    | GetTaskOp(id: string)
    | CompleteTaskOp(id: string, status: TaskStatus)

  /** A service call: who asks, when, and what, with the ids it would generate. */
  datatype Call = Call(ctx: AuthContext, now: int, op: Op)

  datatype Reply =
    | RecordReply(record: Result<Record>)
    | UnitReply(unit: Result<()>)
    | EdgeReply(edge: Result<S.Edge>)
    | EdgesReply(edges: Result<seq<S.Edge>>)
    | ListReply(listing: Result<Listing>)
    | RowsReply(rows: Result<seq<Record>>)
    | ReportReply(report: Result<ReportResult>)
    | TransitionsReply(transitions: Result<seq<Transition>>)
    | MoveReply(move: Result<S.TransitionResult>)
    | ApprovalReply(approval: Result<Approval>)
    | TaskReply(task: Result<Task>)

  datatype Decision = Decision(tx: Tx, reply: Reply)

  function Decide(cfg: Config, db: Db, c: Call): Decision {
    match c.op
    case CreateOp(new_, id) =>
      var o := S.CreateRecord(cfg, db, c.ctx, new_, id, c.now); Decision(o.tx, RecordReply(o.reply))
    case GetOp(id) =>
      var o := S.GetRecord(cfg, db, c.ctx, id, c.now); Decision(o.tx, RecordReply(o.reply))
    case UpdateOp(id, patch) =>
      var o := S.UpdateRecord(cfg, db, c.ctx, id, patch, c.now); Decision(o.tx, RecordReply(o.reply))
    case LifecycleOp(id, to) =>
      var o := S.SetLifecycle(cfg, db, c.ctx, id, to, c.now); Decision(o.tx, UnitReply(o.reply))
    case RelateOp(fromId, toId, relationType, id) =>
      var o := S.Relate(cfg, db, c.ctx, fromId, toId, relationType, id, c.now); Decision(o.tx, EdgeReply(o.reply))
    case RelationsOp(id) =>
      var o := S.GetRelations(cfg, db, c.ctx, id, c.now); Decision(o.tx, EdgesReply(o.reply))
    case ListOp(objectType, filter) =>
      var o := S.ListRecords(cfg, db, c.ctx, objectType, filter, c.now); Decision(o.tx, ListReply(o.reply))
    case ScanOp(objectType, filters, includeArchived) =>
      var o := S.ScanRecords(cfg, db, c.ctx, objectType, filters, includeArchived, c.now);
      Decision(o.tx, RowsReply(o.reply))
    case ReportOp(def) =>
      var o := S.RunReportDef(cfg, db, c.ctx, def, c.now); Decision(o.tx, ReportReply(o.reply))
    case AvailableOp(id) =>
      var o := S.AvailableTransitions(cfg, db, c.ctx, id, c.now); Decision(o.tx, TransitionsReply(o.reply))
    case TransitionOp(id, key, reason, approvalId, taskId) =>
      var o := S.TransitionRecord(cfg, db, c.ctx, id, key, reason, approvalId, taskId, c.now);
      Decision(o.tx, MoveReply(o.reply))
    case GetApprovalOp(id) =>
      var o := S.GetApproval(cfg, db, c.ctx, id, c.now); Decision(o.tx, ApprovalReply(o.reply))
    case DecideOp(id, approved, reason) =>
      var o := S.DecideApproval(cfg, db, c.ctx, id, approved, reason, c.now);
      Decision(o.tx, ApprovalReply(o.reply))
    case CreateTaskOp(task, id) =>
      var o := S.CreateTask(cfg, db, c.ctx, task, id, c.now); Decision(o.tx, TaskReply(o.reply))
    case GetTaskOp(id) =>
      var o := S.GetTask(cfg, db, c.ctx, id, c.now); Decision(o.tx, TaskReply(o.reply))
    case CompleteTaskOp(id, status) =>
      var o := S.CompleteTask(cfg, db, c.ctx, id, status, c.now); Decision(o.tx, TaskReply(o.reply))
  }

  function Step(cfg: Config, db: Db, c: Call): Db {
    Commit(db, Decide(cfg, db, c).tx)
  }

  /** The tables after the calls, starting from empty ones. */
  function Run(cfg: Config, calls: seq<Call>): Db {
    if calls == [] then EMPTY_DB
    else Step(cfg, Run(cfg, calls[..|calls| - 1]), calls[|calls| - 1])
  }

  function Replies(cfg: Config, calls: seq<Call>): (r: seq<Reply>)
    ensures |r| == |calls|
  {
    if calls == [] then []
    else
      var init, last := calls[..|calls| - 1], calls[|calls| - 1];
      Replies(cfg, init) + [Decide(cfg, Run(cfg, init), last).reply]
  }

  /** The ids the call would generate are not in use anywhere. */
  predicate FreshIds(db: Db, op: Op) {
    match op
    case CreateOp(_, id) => id !in db.records
    case TransitionOp(_, _, _, approvalId, taskId) => approvalId !in db.approvals && taskId !in db.tasks
    case CreateTaskOp(_, id) => id !in db.tasks
    case _ => true
  }

  /** Generated ids never repeat during the run. */
  predicate FreshRun(cfg: Config, calls: seq<Call>) {
    calls == []
    || (FreshRun(cfg, calls[..|calls| - 1])
        && FreshIds(Run(cfg, calls[..|calls| - 1]), calls[|calls| - 1].op))
  }

  predicate ReplyOk(r: Reply) {
    match r
    case RecordReply(x) => x.Ok?
    case UnitReply(x) => x.Ok?
    case EdgeReply(x) => x.Ok?
    case EdgesReply(x) => x.Ok?
    case ListReply(x) => x.Ok?
    case RowsReply(x) => x.Ok?
    case ReportReply(x) => x.Ok?
    case TransitionsReply(x) => x.Ok?
    case MoveReply(x) => x.Ok?
    case ApprovalReply(x) => x.Ok?
    case TaskReply(x) => x.Ok?
  }

  predicate ReplyForbidden(r: Reply) {
    match r
    case RecordReply(x) => x == Err(Forbidden)
    case UnitReply(x) => x == Err(Forbidden)
    case EdgeReply(x) => x == Err(Forbidden)
    case EdgesReply(x) => x == Err(Forbidden)
    case ListReply(x) => x == Err(Forbidden)
    case RowsReply(x) => x == Err(Forbidden)
    case ReportReply(x) => x == Err(Forbidden)
    case TransitionsReply(x) => x == Err(Forbidden)
    case MoveReply(x) => x == Err(Forbidden)
    case ApprovalReply(x) => x == Err(Forbidden)
    case TaskReply(x) => x == Err(Forbidden)
  }

  /** A refusal writes one denial exactly when it is for lack of permission, and nothing otherwise. */
  predicate RefusesCleanly(ctx: AuthContext, d: Decision) {
    && (ReplyForbidden(d.reply) <==> d.tx.Denial?)
    && (!ReplyOk(d.reply) ==> d.tx.NoWrite? || d.tx.Denial?)
    && (d.tx.Denial? ==> d.tx.event.verb.PermissionDenied? && d.tx.event.tenantId == ctx.tenantId)
  }

  lemma WritesRefuseCleanly(cfg: Config, db: Db, c: Call)
    requires c.op.CreateOp? || c.op.UpdateOp?
    ensures RefusesCleanly(c.ctx, Decide(cfg, db, c))
  {
  }

  lemma MovesRefuseCleanly(cfg: Config, db: Db, c: Call)
    requires c.op.TransitionOp? || c.op.DecideOp?
    ensures RefusesCleanly(c.ctx, Decide(cfg, db, c))
  {
  }

  lemma EditsRefuseCleanly(cfg: Config, db: Db, c: Call)
    requires c.op.LifecycleOp? || c.op.RelateOp? || c.op.CreateTaskOp? || c.op.CompleteTaskOp?
    ensures RefusesCleanly(c.ctx, Decide(cfg, db, c))
  {
    hide Authorized;
  }

  lemma ReadsRefuseCleanly(cfg: Config, db: Db, c: Call)
    requires c.op.GetOp? || c.op.RelationsOp? || c.op.ListOp? || c.op.ScanOp? || c.op.ReportOp? || c.op.AvailableOp?
             || c.op.GetApprovalOp? || c.op.GetTaskOp?
    ensures RefusesCleanly(c.ctx, Decide(cfg, db, c))
  {
    hide Scan, Report, ListRows, ShownAll;
  }

  /** A refused call leaves every table alone: it appends one denial to the log exactly when
      the refusal is for lack of permission, and nothing otherwise. */
  lemma RefusalsWriteOnlyDenials(cfg: Config, db: Db, c: Call)
    ensures RefusesCleanly(c.ctx, Decide(cfg, db, c))
    ensures !ReplyOk(Decide(cfg, db, c).reply) ==> Step(cfg, db, c).(audit := db.audit) == db
  {
    hide Decide, ReplyOk, ReplyForbidden;
    match c.op {
      case CreateOp(_, _) => WritesRefuseCleanly(cfg, db, c);
      case UpdateOp(_, _) => WritesRefuseCleanly(cfg, db, c);
      case TransitionOp(_, _, _, _, _) => MovesRefuseCleanly(cfg, db, c);
      case DecideOp(_, _, _) => MovesRefuseCleanly(cfg, db, c);
      case LifecycleOp(_, _) => EditsRefuseCleanly(cfg, db, c);
      case RelateOp(_, _, _, _) => EditsRefuseCleanly(cfg, db, c);
      case CreateTaskOp(_, _) => EditsRefuseCleanly(cfg, db, c);
      case CompleteTaskOp(_, _) => EditsRefuseCleanly(cfg, db, c);
      case _ => ReadsRefuseCleanly(cfg, db, c);
    }
  }
}
