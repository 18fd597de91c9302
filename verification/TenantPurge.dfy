/** Tenant isolation as a two-run property: deleting every other tenant's calls from a run
    changes nothing a tenant can see. */
module TenantPurge {
  import opened Values
  import opened Contracts
  import opened Store
  import opened Sorting
  import opened ReadPath
  import opened Machine
  import opened Lawful
  import S = Services

  // ---- a tenant's share of the tables ---------------------------------------------------------

  function OwnKeys(order: seq<RowKey>, tenantId: string): seq<RowKey> {
    if order == [] then []
    else
      var last := order[|order| - 1];
      OwnKeys(order[..|order| - 1], tenantId) + (if last.tenantId == tenantId then [last] else [])
  }

  function OwnRelations(rels: seq<Relation>, tenantId: string): (r: seq<Relation>)
    ensures forall x :: x in r <==> x in rels && x.tenantId == tenantId
  {
    if rels == [] then []
    else
      var last := rels[|rels| - 1];
      OwnRelations(rels[..|rels| - 1], tenantId) + (if last.tenantId == tenantId then [last] else [])
  }

  function OwnEvents(log: seq<Event>, tenantId: string): seq<Event> {
    if log == [] then []
    else
      var last := log[|log| - 1];
      OwnEvents(log[..|log| - 1], tenantId) + (if last.tenantId == tenantId then [last] else [])
  }

  function OwnRecords(records: map<string, Record>, tenantId: string): map<string, Record> {
    map id | id in records && records[id].tenantId == tenantId :: records[id]
  }

  function OwnApprovals(approvals: map<string, Approval>, tenantId: string): map<string, Approval> {
    map id | id in approvals && approvals[id].tenantId == tenantId :: approvals[id]
  }

  function OwnTasks(tasks: map<string, Task>, tenantId: string): map<string, Task> {
    map id | id in tasks && tasks[id].tenantId == tenantId :: tasks[id]
  }

  /** The tables with every other tenant's rows and events removed. */
  function Share(db: Db, tenantId: string): Db {
    Db(OwnRecords(db.records, tenantId), OwnKeys(db.order, tenantId), OwnRelations(db.relations, tenantId),
       OwnApprovals(db.approvals, tenantId), OwnTasks(db.tasks, tenantId), OwnEvents(db.audit, tenantId))
  }

  // ---- reads see only the share ---------------------------------------------------------------

  lemma {:induction false} MatchingRowsFromShare(
    order: seq<RowKey>, records: map<string, Record>, tenantId: string, objectType: string, includeArchived: bool)
    ensures MatchingRows(order, records, tenantId, objectType, includeArchived)
            == MatchingRows(OwnKeys(order, tenantId), OwnRecords(records, tenantId), tenantId, objectType,
                            includeArchived)
  {
    if order != [] {
      var init, last := order[..|order| - 1], order[|order| - 1];
      MatchingRowsFromShare(init, records, tenantId, objectType, includeArchived);
      var own := OwnKeys(init, tenantId);
      assert (own + [last])[..|own|] == own;
      assert own + [] == own;
    }
  }

  lemma {:induction false} RelationsFromShare(rels: seq<Relation>, tenantId: string, id: string)
    ensures RelationsOf(rels, tenantId, id) == RelationsOf(OwnRelations(rels, tenantId), tenantId, id)
  {
    if rels != [] {
      var init, last := rels[..|rels| - 1], rels[|rels| - 1];
      RelationsFromShare(init, tenantId, id);
      var own := OwnRelations(init, tenantId);
      assert (own + [last])[..|own|] == own;
      assert own + [] == own;
    }
  }

  lemma RowsFromShare(db: Db, tenantId: string)
    ensures forall id :: LoadRecord(Share(db, tenantId), tenantId, id) == LoadRecord(db, tenantId, id)
    ensures forall id :: LoadApproval(Share(db, tenantId), tenantId, id) == LoadApproval(db, tenantId, id)
    ensures forall id :: LoadTask(Share(db, tenantId), tenantId, id) == LoadTask(db, tenantId, id)
  {
  }

  lemma CandidatesFromShare(db: Db, tenantId: string, objectType: string, includeArchived: bool)
    ensures Candidates(Share(db, tenantId), tenantId, objectType, includeArchived)
            == Candidates(db, tenantId, objectType, includeArchived)
  {
    MatchingRowsFromShare(db.order, db.records, tenantId, objectType, includeArchived);
  }

  lemma ChangesFromShare(cfg: Config, db: Db, c: Call)
    requires FreshIds(db, c.op) && (c.op.CreateOp? || c.op.UpdateOp? || c.op.LifecycleOp? || c.op.RelateOp?)
    ensures Decide(cfg, Share(db, c.ctx.tenantId), c) == Decide(cfg, db, c)
  {
    RowsFromShare(db, c.ctx.tenantId);
  }

  lemma FlowFromShare(cfg: Config, db: Db, c: Call)
    requires FreshIds(db, c.op) && (c.op.TransitionOp? || c.op.DecideOp?)
    ensures Decide(cfg, Share(db, c.ctx.tenantId), c) == Decide(cfg, db, c)
  {
    RowsFromShare(db, c.ctx.tenantId);
  }

  lemma TasksFromShare(cfg: Config, db: Db, c: Call)
    requires FreshIds(db, c.op) && (c.op.CreateTaskOp? || c.op.GetTaskOp? || c.op.CompleteTaskOp?)
    ensures Decide(cfg, Share(db, c.ctx.tenantId), c) == Decide(cfg, db, c)
  {
    RowsFromShare(db, c.ctx.tenantId);
  }

  lemma ReadsFromShare(cfg: Config, db: Db, c: Call)
    requires c.op.GetOp? || c.op.AvailableOp? || c.op.GetApprovalOp? || c.op.RelationsOp?
    ensures Decide(cfg, Share(db, c.ctx.tenantId), c) == Decide(cfg, db, c)
  {
    RowsFromShare(db, c.ctx.tenantId);
    if c.op.RelationsOp? {
      RelationsFromShare(db.relations, c.ctx.tenantId, c.op.id);
    }
  }

  /** A call decides the same transaction and reply on its tenant's share as on all tables. */
  lemma DecidesFromShare(cfg: Config, db: Db, c: Call)
    requires FreshIds(db, c.op)
    ensures Decide(cfg, Share(db, c.ctx.tenantId), c) == Decide(cfg, db, c)
  {
    hide Share, S.CreateRecord, S.UpdateRecord, S.TransitionRecord, S.DecideApproval, S.SetLifecycle, S.CompleteTask,
      S.CreateTask, S.Relate, S.GetTask;
    var t := c.ctx.tenantId;
    match c.op {
      case ListOp(objectType, filter) => CandidatesFromShare(db, t, objectType, filter.includeArchived);
      case ScanOp(objectType, _, archived) => CandidatesFromShare(db, t, objectType, archived);
      case ReportOp(def) => CandidatesFromShare(db, t, def.objectType, false);
      case CreateOp(_, _) => ChangesFromShare(cfg, db, c);
      case UpdateOp(_, _) => ChangesFromShare(cfg, db, c);
      case LifecycleOp(_, _) => ChangesFromShare(cfg, db, c);
      case RelateOp(_, _, _, _) => ChangesFromShare(cfg, db, c);
      case TransitionOp(_, _, _, _, _) => FlowFromShare(cfg, db, c);
      case DecideOp(_, _, _) => FlowFromShare(cfg, db, c);
      case CreateTaskOp(_, _) => TasksFromShare(cfg, db, c);
      case GetTaskOp(_) => TasksFromShare(cfg, db, c);
      case CompleteTaskOp(_, _) => TasksFromShare(cfg, db, c);
      case _ => ReadsFromShare(cfg, db, c);
    }
  }

  // ---- writes stay in the share ---------------------------------------------------------------

  lemma OwnAppend(db: Db, e: Event, k: RowKey, rel: Relation, tenantId: string)
    ensures OwnEvents(db.audit + [e], tenantId)
            == OwnEvents(db.audit, tenantId) + (if e.tenantId == tenantId then [e] else [])
    ensures OwnKeys(db.order + [k], tenantId)
            == OwnKeys(db.order, tenantId) + (if k.tenantId == tenantId then [k] else [])
    ensures OwnRelations(db.relations + [rel], tenantId)
            == OwnRelations(db.relations, tenantId) + (if rel.tenantId == tenantId then [rel] else [])
  {
  }

  lemma OwnRecordsAfter(records: map<string, Record>, r: Record, tenantId: string)
    requires r.id in records ==> records[r.id].tenantId == r.tenantId
    ensures OwnRecords(records[r.id := r], tenantId)
            == if r.tenantId == tenantId then OwnRecords(records, tenantId)[r.id := r]
               else OwnRecords(records, tenantId)
  {
  }

  lemma OwnApprovalsAfter(approvals: map<string, Approval>, a: Approval, tenantId: string)
    requires a.id in approvals ==> approvals[a.id].tenantId == a.tenantId
    ensures OwnApprovals(approvals[a.id := a], tenantId)
            == if a.tenantId == tenantId then OwnApprovals(approvals, tenantId)[a.id := a]
               else OwnApprovals(approvals, tenantId)
  {
  }

  lemma OwnTasksAfter(tasks: map<string, Task>, t: Task, tenantId: string)
    requires t.id in tasks ==> tasks[t.id].tenantId == t.tenantId
    ensures OwnTasks(tasks[t.id := t], tenantId)
            == if t.tenantId == tenantId then OwnTasks(tasks, tenantId)[t.id := t] else OwnTasks(tasks, tenantId)
  {
  }

  lemma OwnTasksClosed(
    tasks: map<string, Task>, of_: string, approvalId: string, status: TaskStatus, now: int, tenantId: string)
    ensures OwnTasks(CloseTasks(tasks, of_, approvalId, status, now), tenantId)
            == if of_ == tenantId then CloseTasks(OwnTasks(tasks, tenantId), of_, approvalId, status, now)
               else OwnTasks(tasks, tenantId)
  {
  }

  /** Every row and event of the transaction belongs to the tenant, and every row it replaces did. */
  ghost predicate TxOwned(db: Db, tx: Tx, tenantId: string) {
    match tx
    case NoWrite => true
    case Denial(e) => e.tenantId == tenantId
    case InsertRecord(r, e) => r.tenantId == e.tenantId == tenantId && OwnRow(db, r)
    case ReplaceRecord(r, e) => r.tenantId == e.tenantId == tenantId && OwnRow(db, r)
    case InsertRelation(rel, e) => rel.tenantId == e.tenantId == tenantId
    case RequestApproval(a, t, e) =>
      a.tenantId == t.tenantId == e.tenantId == tenantId && a.id !in db.approvals && t.id !in db.tasks
    case DecideApproval(a, moved, log) =>
      && a.tenantId == tenantId && a.id in db.approvals && db.approvals[a.id].tenantId == tenantId
      && (moved.Some? ==> moved.value.tenantId == tenantId && OwnRow(db, moved.value))
      && (log.Some? ==> log.value.tenantId == tenantId)
    case InsertTask(t, e) => t.tenantId == e.tenantId == tenantId && t.id !in db.tasks
    case ReplaceTask(t, e) =>
      t.tenantId == e.tenantId == tenantId && t.id in db.tasks && db.tasks[t.id].tenantId == tenantId
  }

  predicate OwnRow(db: Db, r: Record) {
    r.id in db.records ==> db.records[r.id].tenantId == r.tenantId
  }

  lemma LawfulIsOwned(cfg: Config, db: Db, ctx: AuthContext, tx: Tx)
    requires WellFormed(db) && LawfulTx(cfg, db, ctx, tx)
    ensures TxOwned(db, tx, ctx.tenantId)
  {
  }

  /** A tenant's share after its own transaction is the transaction applied to the share. */
  lemma OwnCommit(db: Db, tx: Tx, tenantId: string)
    requires TxOwned(db, tx, tenantId)
    ensures Share(Commit(db, tx), tenantId) == Commit(Share(db, tenantId), tx)
  {
    var k, rel := RowKey("", ""), Relation("", "", "", "", "", "", 0);
    match tx {
      case NoWrite =>
      case Denial(e) => OwnAppend(db, e, k, rel, tenantId);
      case InsertRecord(r, e) =>
        OwnAppend(db, e, RowKey(r.tenantId, r.id), rel, tenantId);
        OwnRecordsAfter(db.records, r, tenantId);
      case ReplaceRecord(r, e) =>
        OwnAppend(db, e, k, rel, tenantId);
        OwnRecordsAfter(db.records, r, tenantId);
      case InsertRelation(r, e) =>
        OwnAppend(db, e, k, r, tenantId);
        assert (exists x | x in db.relations :: SameEdge(x, r))
          <==> (exists x | x in OwnRelations(db.relations, tenantId) :: SameEdge(x, r));
      case RequestApproval(a, t, e) =>
        OwnAppend(db, e, k, rel, tenantId);
        OwnApprovalsAfter(db.approvals, a, tenantId);
        OwnTasksAfter(db.tasks, t, tenantId);
      case DecideApproval(a, moved, log) => OwnDecision(db, a, moved, log, tenantId);
      case InsertTask(t, e) =>
        OwnAppend(db, e, k, rel, tenantId);
        OwnTasksAfter(db.tasks, t, tenantId);
      case ReplaceTask(t, e) =>
        OwnAppend(db, e, k, rel, tenantId);
        OwnTasksAfter(db.tasks, t, tenantId);
    }
  }

  lemma OwnDecision(db: Db, a: Approval, moved: Option<Record>, log: Option<Event>, tenantId: string)
    requires TxOwned(db, DecideApproval(a, moved, log), tenantId)
    ensures Share(Commit(db, DecideApproval(a, moved, log)), tenantId)
            == Commit(Share(db, tenantId), DecideApproval(a, moved, log))
  {
    if log.Some? {
      OwnAppend(db, log.value, RowKey("", ""), Relation("", "", "", "", "", "", 0), tenantId);
    }
    if moved.Some? { OwnRecordsAfter(db.records, moved.value, tenantId); }
    OwnApprovalsAfter(db.approvals, a, tenantId);
    OwnTasksClosed(db.tasks, a.tenantId, a.id, ClosingStatus(a.status),
                   if a.decidedAt.Some? then a.decidedAt.value else 0, tenantId);
  }

  /** Another tenant's transaction leaves the share as it was. */
  lemma ForeignCommit(db: Db, tx: Tx, owner: string, tenantId: string)
    requires TxOwned(db, tx, owner) && owner != tenantId
    ensures Share(Commit(db, tx), tenantId) == Share(db, tenantId)
  {
    hide OwnRecords, OwnApprovals, OwnTasks, OwnRelations, OwnKeys, OwnEvents;
    var k, rel := RowKey("", ""), Relation("", "", "", "", "", "", 0);
    match tx {
      case NoWrite =>
      case Denial(e) => OwnAppend(db, e, k, rel, tenantId);
      case InsertRecord(r, e) =>
        OwnAppend(db, e, RowKey(r.tenantId, r.id), rel, tenantId);
        OwnRecordsAfter(db.records, r, tenantId);
      case ReplaceRecord(r, e) =>
        OwnAppend(db, e, k, rel, tenantId);
        OwnRecordsAfter(db.records, r, tenantId);
      case InsertRelation(r, e) => OwnAppend(db, e, k, r, tenantId);
      case RequestApproval(a, t, e) =>
        OwnAppend(db, e, k, rel, tenantId);
        OwnApprovalsAfter(db.approvals, a, tenantId);
        OwnTasksAfter(db.tasks, t, tenantId);
      case DecideApproval(a, moved, log) => ForeignDecision(db, a, moved, log, owner, tenantId);
      case InsertTask(t, e) =>
        OwnAppend(db, e, k, rel, tenantId);
        OwnTasksAfter(db.tasks, t, tenantId);
      case ReplaceTask(t, e) =>
        OwnAppend(db, e, k, rel, tenantId);
        OwnTasksAfter(db.tasks, t, tenantId);
    }
  }

  lemma ForeignDecision(
    db: Db, a: Approval, moved: Option<Record>, log: Option<Event>, owner: string, tenantId: string)
    requires TxOwned(db, DecideApproval(a, moved, log), owner) && owner != tenantId
    ensures Share(Commit(db, DecideApproval(a, moved, log)), tenantId) == Share(db, tenantId)
  {
    if log.Some? {
      OwnAppend(db, log.value, RowKey("", ""), Relation("", "", "", "", "", "", 0), tenantId);
    }
    if moved.Some? { OwnRecordsAfter(db.records, moved.value, tenantId); }
    OwnApprovalsAfter(db.approvals, a, tenantId);
    OwnTasksClosed(db.tasks, a.tenantId, a.id, ClosingStatus(a.status),
                   if a.decidedAt.Some? then a.decidedAt.value else 0, tenantId);
  }

  // ---- whole runs ------------------------------------------------------------------------------

  function OwnCalls(calls: seq<Call>, tenantId: string): seq<Call> {
    if calls == [] then []
    else
      var last := calls[|calls| - 1];
      OwnCalls(calls[..|calls| - 1], tenantId) + (if last.ctx.tenantId == tenantId then [last] else [])
  }

  /** The replies given to one tenant's calls, in order. */
  function OwnReplies(calls: seq<Call>, replies: seq<Reply>, tenantId: string): seq<Reply>
    requires |calls| == |replies|
  {
    if calls == [] then []
    else
      var n := |calls| - 1;
      OwnReplies(calls[..n], replies[..n], tenantId)
      + (if calls[n].ctx.tenantId == tenantId then [replies[n]] else [])
  }

  lemma RunsExtend(cfg: Config, calls: seq<Call>, c: Call)
    ensures Run(cfg, calls + [c]) == Step(cfg, Run(cfg, calls), c)
    ensures Replies(cfg, calls + [c]) == Replies(cfg, calls) + [Decide(cfg, Run(cfg, calls), c).reply]
  {
  }

  lemma StepsShare(cfg: Config, db: Db, c: Call, tenantId: string)
    requires ConfigValid(cfg) && WellFormed(db) && FreshIds(db, c.op)
    ensures c.ctx.tenantId != tenantId ==> Share(Step(cfg, db, c), tenantId) == Share(db, tenantId)
    ensures c.ctx.tenantId == tenantId ==>
              && Share(Step(cfg, db, c), tenantId) == Step(cfg, Share(db, tenantId), c)
              && Decide(cfg, Share(db, tenantId), c).reply == Decide(cfg, db, c).reply
  {
    var tx := Decide(cfg, db, c).tx;
    EveryCallIsLawful(cfg, db, c);
    LawfulIsOwned(cfg, db, c.ctx, tx);
    if c.ctx.tenantId == tenantId {
      DecidesFromShare(cfg, db, c);
      OwnCommit(db, tx, tenantId);
    } else {
      ForeignCommit(db, tx, c.ctx.tenantId, tenantId);
    }
  }

  /** In any interleaved run, a tenant's rows, its audit events and every reply it receives are
      exactly those of the run in which no other tenant made a call. */
  lemma {:induction false} OtherTenantsAreInvisible(cfg: Config, calls: seq<Call>, tenantId: string)
    requires ConfigValid(cfg) && FreshRun(cfg, calls)
    ensures Share(Run(cfg, calls), tenantId) == Run(cfg, OwnCalls(calls, tenantId))
    ensures OwnReplies(calls, Replies(cfg, calls), tenantId) == Replies(cfg, OwnCalls(calls, tenantId))
  {
    if calls == [] {
      assert Share(EMPTY_DB, tenantId) == EMPTY_DB;
    } else {
      var n := |calls| - 1;
      var init, c := calls[..n], calls[n];
      OtherTenantsAreInvisible(cfg, init, tenantId);
      RunIsWellFormed(cfg, init);
      StepsShare(cfg, Run(cfg, init), c, tenantId);
      assert Replies(cfg, calls)[..n] == Replies(cfg, init);
      if c.ctx.tenantId == tenantId {
        RunsExtend(cfg, OwnCalls(init, tenantId), c);
      } else {
        assert OwnCalls(calls, tenantId) == OwnCalls(init, tenantId);
      }
    }
  }
}
