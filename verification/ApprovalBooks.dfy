/** Approvals, their engine-made tasks and their audit events agree, in every reachable state. */
module ApprovalBooks {
  import opened Values
  import opened Contracts
  import opened Store
  import opened Machine
  import opened Lawful
  import AuditReplay
  import Rbac
  import ReadPath
  import S = Services

  /** How many events of this kind the log links to the approval. */
  function Linked(log: seq<Event>, verb: Verb, approvalId: string): nat {
    if log == [] then 0
    else Linked(log[..|log| - 1], verb, approvalId) + Counts(log[|log| - 1], verb, approvalId)
  }

  function Counts(e: Event, verb: Verb, approvalId: string): nat {
    if e.verb == verb && e.approvalId == Some(approvalId) then 1 else 0
  }

  /** A task someone created by hand has a creation event; the engine's tasks have none. */
  predicate HandMade(log: seq<Event>, taskId: string) {
    exists e | e in log :: e.verb.TaskCreated? && e.targetId == Some(taskId)
  }

  /** The task the workflow engine made for the approval. */
  predicate EngineTask(db: Db, taskId: string, approvalId: string) {
    taskId in db.tasks && !HandMade(db.audit, taskId)
    && LinkedTo(db.tasks[taskId], db.tasks[taskId].tenantId, approvalId)
  }

  /** One request event; then none, one transition or one rejection, as the status says. */
  predicate EventsBalance(log: seq<Event>, a: Approval) {
    && Linked(log, TransitionRequested, a.id) == 1
    && Linked(log, Transitioned, a.id) == (if a.status.Approved? then 1 else 0)
    && Linked(log, ApprovalRejected, a.id) == (if a.status.Rejected? then 1 else 0)
  }

  /** Exactly one engine task, closed as the status says once the approval is decided. */
  ghost predicate TaskFollows(db: Db, a: Approval) {
    && (exists t :: t in db.tasks && EngineTask(db, t, a.id) && db.tasks[t].tenantId == a.tenantId)
    && (forall t, u | t in db.tasks && u in db.tasks && EngineTask(db, t, a.id) && EngineTask(db, u, a.id) :: t == u)
    && (forall t | t in db.tasks && EngineTask(db, t, a.id) :: TaskSettled(db.tasks[t], a))
  }

  predicate TaskSettled(t: Task, a: Approval) {
    !a.status.Pending? ==> t.status == ClosingStatus(a.status)
  }

  ghost predicate BookKept(db: Db, a: Approval) {
    EventsBalance(db.audit, a) && TaskFollows(db, a) && (a.decidedBy.Some? <==> !a.status.Pending?)
  }

  /** No event or engine task points at an approval that does not exist, and no creation event
      at a task that does not. */
  ghost predicate NothingStray(db: Db) {
    && (forall e | e in db.audit && e.approvalId.Some? :: e.approvalId.value in db.approvals)
    && (forall e | e in db.audit && e.verb.TaskCreated? :: e.targetId.Some? && e.targetId.value in db.tasks)
    && (forall t, x | t in db.tasks && EngineTask(db, t, x) :: x in db.approvals)
  }

  ghost predicate BooksKept(db: Db) {
    NothingStray(db) && forall id | id in db.approvals :: BookKept(db, db.approvals[id])
  }

  lemma {:induction false} UnlinkedIsZero(log: seq<Event>, verb: Verb, approvalId: string)
    requires forall e | e in log :: e.approvalId != Some(approvalId)
    ensures Linked(log, verb, approvalId) == 0
  {
    if log != [] {
      UnlinkedIsZero(log[..|log| - 1], verb, approvalId);
    }
  }

  lemma LinkedAfter(db: Db, tx: Tx, verb: Verb, approvalId: string)
    ensures var e := AuditReplay.Logged(tx);
            Linked(Commit(db, tx).audit, verb, approvalId)
            == Linked(db.audit, verb, approvalId) + if e.Some? then Counts(e.value, verb, approvalId) else 0
  {
  }

  /** Existing tasks keep their maker and their link; only their status may move. */
  lemma TasksKeepLinks(cfg: Config, db: Db, ctx: AuthContext, tx: Tx, t: string, x: string)
    requires NothingStray(db) && LawfulTx(cfg, db, ctx, tx) && t in db.tasks
    ensures t in Commit(db, tx).tasks && Commit(db, tx).tasks[t].tenantId == db.tasks[t].tenantId
    ensures EngineTask(Commit(db, tx), t, x) <==> EngineTask(db, t, x)
  {
  }

  /** A new task is the engine's exactly when it comes with a request, and then it is linked to
      that request's approval alone. */
  lemma NewTaskMaker(cfg: Config, db: Db, ctx: AuthContext, tx: Tx, t: string, x: string)
    requires NothingStray(db) && LawfulTx(cfg, db, ctx, tx) && t !in db.tasks && t in Commit(db, tx).tasks
    ensures EngineTask(Commit(db, tx), t, x) <==> tx.RequestApproval? && tx.approval.id == x
    ensures tx.RequestApproval? ==> tx.task.id == t && Commit(db, tx).tasks[t].tenantId == ctx.tenantId
  {
  }

  lemma LawfulLeavesNothingStray(cfg: Config, db: Db, ctx: AuthContext, tx: Tx)
    requires NothingStray(db) && LawfulTx(cfg, db, ctx, tx)
    ensures NothingStray(Commit(db, tx))
  {
    var db', e := Commit(db, tx), AuditReplay.Logged(tx);
    AuditReplay.CommitAppends(db, tx);
    forall t, x | t in db'.tasks && EngineTask(db', t, x) ensures x in db'.approvals {
      if t in db.tasks {
        TasksKeepLinks(cfg, db, ctx, tx, t, x);
      } else {
        NewTaskMaker(cfg, db, ctx, tx, t, x);
      }
    }
  }

  /** A request opens a book: one request event, one engine task, nothing decided. */
  lemma RequestOpensBook(cfg: Config, db: Db, ctx: AuthContext, a: Approval, task: Task, e: Event)
    requires NothingStray(db) && LawfulRequest(cfg, db, ctx, a, task, e)
    ensures BookKept(Commit(db, RequestApproval(a, task, e)), a)
  {
    hide TakableEdge, S.SelfDecision;
    var tx := RequestApproval(a, task, e);
    var db' := Commit(db, tx);
    forall verb: Verb ensures Linked(db.audit, verb, a.id) == 0 {
      UnlinkedIsZero(db.audit, verb, a.id);
    }
    LinkedAfter(db, tx, TransitionRequested, a.id);
    LinkedAfter(db, tx, Transitioned, a.id);
    LinkedAfter(db, tx, ApprovalRejected, a.id);
    NewTaskMaker(cfg, db, ctx, tx, task.id, a.id);
    assert EngineTask(db', task.id, a.id);
    forall t | t in db'.tasks && EngineTask(db', t, a.id) ensures t == task.id {
      if t in db.tasks { TasksKeepLinks(cfg, db, ctx, tx, t, a.id); }
    }
  }

  /** The engine task set of an existing approval never changes. */
  lemma EngineTasksStay(cfg: Config, db: Db, ctx: AuthContext, tx: Tx, x: string)
    requires NothingStray(db) && LawfulTx(cfg, db, ctx, tx) && x in db.approvals
    ensures forall t | t in Commit(db, tx).tasks && EngineTask(Commit(db, tx), t, x) ::
              t in db.tasks && EngineTask(db, t, x)
    ensures forall t | t in db.tasks && EngineTask(db, t, x) ::
              && t in Commit(db, tx).tasks && EngineTask(Commit(db, tx), t, x)
              && Commit(db, tx).tasks[t].tenantId == db.tasks[t].tenantId
  {
    var db' := Commit(db, tx);
    forall t | t in db'.tasks && EngineTask(db', t, x) ensures t in db.tasks && EngineTask(db, t, x) {
      if t in db.tasks {
        TasksKeepLinks(cfg, db, ctx, tx, t, x);
      } else {
        NewTaskMaker(cfg, db, ctx, tx, t, x);
      }
    }
    forall t | t in db.tasks && EngineTask(db, t, x)
      ensures t in db'.tasks && EngineTask(db', t, x) && db'.tasks[t].tenantId == db.tasks[t].tenantId
    {
      TasksKeepLinks(cfg, db, ctx, tx, t, x);
    }
  }

  /** Closed tasks stay as they are, except that a decision closes its own approval's. */
  lemma ClosedTasksStay(cfg: Config, db: Db, ctx: AuthContext, tx: Tx, t: string, x: string)
    requires WellFormed(db) && LawfulTx(cfg, db, ctx, tx) && t in db.tasks && EngineTask(db, t, x)
    requires db.tasks[t].status.Done? || db.tasks[t].status.Cancelled?
    requires !(tx.DecideApproval? && tx.approval.id == x)
    ensures t in Commit(db, tx).tasks && Commit(db, tx).tasks[t].status == db.tasks[t].status
  {
  }

  lemma ForeignEventsDoNotCount(cfg: Config, db: Db, ctx: AuthContext, tx: Tx, id: string)
    requires LawfulTx(cfg, db, ctx, tx) && id in db.approvals
    requires !(tx.DecideApproval? && tx.approval.id == id)
    ensures AuditReplay.Logged(tx).Some? ==> AuditReplay.Logged(tx).value.approvalId != Some(id)
  {
  }

  lemma ForeignTaskFollows(cfg: Config, db: Db, ctx: AuthContext, tx: Tx, a: Approval)
    requires WellFormed(db) && NothingStray(db) && LawfulTx(cfg, db, ctx, tx) && a.id in db.approvals
    requires !(tx.DecideApproval? && tx.approval.id == a.id) && TaskFollows(db, a)
    ensures TaskFollows(Commit(db, tx), a)
  {
    var db' := Commit(db, tx);
    EngineTasksStay(cfg, db, ctx, tx, a.id);
    var t :| t in db.tasks && EngineTask(db, t, a.id) && db.tasks[t].tenantId == a.tenantId;
    assert EngineTask(db', t, a.id) && db'.tasks[t].tenantId == a.tenantId;
    if !a.status.Pending? {
      assert TaskSettled(db.tasks[t], a);
      ClosedTasksStay(cfg, db, ctx, tx, t, a.id);
    }
    assert TaskSettled(db'.tasks[t], a);
  }

  /** Transactions about other approvals leave a book as it was. */
  lemma OtherBooksStay(cfg: Config, db: Db, ctx: AuthContext, tx: Tx, id: string)
    requires WellFormed(db) && NothingStray(db) && LawfulTx(cfg, db, ctx, tx)
    requires id in db.approvals && BookKept(db, db.approvals[id])
    requires !(tx.DecideApproval? && tx.approval.id == id)
    ensures id in Commit(db, tx).approvals && Commit(db, tx).approvals[id] == db.approvals[id]
    ensures BookKept(Commit(db, tx), db.approvals[id])
  {
    hide NothingStray, TaskFollows, Linked;
    LinkedAfter(db, tx, TransitionRequested, id);
    LinkedAfter(db, tx, Transitioned, id);
    LinkedAfter(db, tx, ApprovalRejected, id);
    ForeignEventsDoNotCount(cfg, db, ctx, tx, id);
    ForeignTaskFollows(cfg, db, ctx, tx, db.approvals[id]);
  }

  lemma DecisionSettlesTask(
    cfg: Config, db: Db, ctx: AuthContext, a: Approval, moved: Option<Record>, log: Option<Event>)
    requires WellFormed(db) && NothingStray(db) && LawfulDecision(cfg, db, ctx, a, moved, log)
    requires TaskFollows(db, db.approvals[a.id])
    ensures TaskFollows(Commit(db, DecideApproval(a, moved, log)), a)
  {
    var tx := DecideApproval(a, moved, log);
    var db' := Commit(db, tx);
    EngineTasksStay(cfg, db, ctx, tx, a.id);
    var t :| t in db.tasks && EngineTask(db, t, a.id) && db.tasks[t].tenantId == db.approvals[a.id].tenantId;
    assert EngineTask(db', t, a.id) && db'.tasks[t].tenantId == a.tenantId;
    assert TaskSettled(db'.tasks[t], a);
  }

  /** A decision logs one event of its kind and closes the engine task accordingly. */
  lemma DecisionClosesBook(
    cfg: Config, db: Db, ctx: AuthContext, a: Approval, moved: Option<Record>, log: Option<Event>)
    requires WellFormed(db) && Anchored(db) && NothingStray(db) && LawfulDecision(cfg, db, ctx, a, moved, log)
    requires BookKept(db, db.approvals[a.id])
    ensures BookKept(Commit(db, DecideApproval(a, moved, log)), a)
  {
    hide TaskFollows, TakableEdge;
    var tx := DecideApproval(a, moved, log);
    LinkedAfter(db, tx, TransitionRequested, a.id);
    LinkedAfter(db, tx, Transitioned, a.id);
    LinkedAfter(db, tx, ApprovalRejected, a.id);
    DecisionSettlesTask(cfg, db, ctx, a, moved, log);
  }

  lemma {:induction false} BooksKeptInRuns(cfg: Config, calls: seq<Call>)
    requires ConfigValid(cfg)
    ensures BooksKept(Run(cfg, calls))
  {
    if calls != [] {
      var init, c := calls[..|calls| - 1], calls[|calls| - 1];
      var db := Run(cfg, init);
      var tx := Decide(cfg, db, c).tx;
      BooksKeptInRuns(cfg, init);
      RunIsWellFormed(cfg, init);
      EveryCallIsLawful(cfg, db, c);
      LawfulLeavesNothingStray(cfg, db, c.ctx, tx);
      forall id | id in Commit(db, tx).approvals ensures BookKept(Commit(db, tx), Commit(db, tx).approvals[id]) {
        assert id in db.approvals ==> BookKept(db, db.approvals[id]);
        if tx.DecideApproval? && tx.approval.id == id {
          DecisionClosesBook(cfg, db, c.ctx, tx.approval, tx.moved, tx.log);
        } else if id in db.approvals {
          OtherBooksStay(cfg, db, c.ctx, tx, id);
        } else {
          RequestOpensBook(cfg, db, c.ctx, tx.approval, tx.task, tx.event);
        }
      }
    }
  }

  /** In every run, each approval has exactly one request event and exactly one engine-made task
      of its tenant. Approved means exactly one linked transition event and that task done;
      rejected, exactly one reject event and that task cancelled; pending, neither event. */
  lemma ApprovalsAgreeWithLogAndTasks(cfg: Config, calls: seq<Call>, id: string)
    requires ConfigValid(cfg) && id in Run(cfg, calls).approvals
    ensures var db := Run(cfg, calls);
            var a := db.approvals[id];
            && Linked(db.audit, TransitionRequested, id) == 1
            && Linked(db.audit, Transitioned, id) == (if a.status.Approved? then 1 else 0)
            && Linked(db.audit, ApprovalRejected, id) == (if a.status.Rejected? then 1 else 0)
            && (a.decidedBy.Some? <==> !a.status.Pending?)
            && exists t ::
                 && t in db.tasks && EngineTask(db, t, id) && db.tasks[t].tenantId == a.tenantId
                 && (a.status.Approved? ==> db.tasks[t].status.Done?)
                 && (a.status.Rejected? ==> db.tasks[t].status.Cancelled?)
                 && forall u | u in db.tasks && EngineTask(db, u, id) :: u == t
  {
    hide Decide, Commit;
    BooksKeptInRuns(cfg, calls);
    RunIsWellFormed(cfg, calls);
    var db := Run(cfg, calls);
    var a := db.approvals[id];
    assert BookKept(db, a);
    var t :| t in db.tasks && EngineTask(db, t, id) && db.tasks[t].tenantId == a.tenantId;
    assert TaskSettled(db.tasks[t], a);
  }

  /** A decided approval is final: no later call changes its row or its engine task's status. */
  lemma DecidedIsFinal(cfg: Config, calls: seq<Call>, c: Call, id: string, t: string)
    requires ConfigValid(cfg) && id in Run(cfg, calls).approvals
    requires !Run(cfg, calls).approvals[id].status.Pending?
    requires t in Run(cfg, calls).tasks && EngineTask(Run(cfg, calls), t, id)
    ensures var before, after := Run(cfg, calls), Step(cfg, Run(cfg, calls), c);
            && id in after.approvals && after.approvals[id] == before.approvals[id]
            && t in after.tasks && after.tasks[t].status == before.tasks[t].status
  {
    hide Decide, Commit, BooksKept;
    var db := Run(cfg, calls);
    BooksKeptInRuns(cfg, calls);
    RunIsWellFormed(cfg, calls);
    EveryCallIsLawful(cfg, db, c);
    assert BookKept(db, db.approvals[id]);
    assert TaskSettled(db.tasks[t], db.approvals[id]);
    OtherBooksStay(cfg, db, c.ctx, Decide(cfg, db, c).tx, id);
    ClosedTasksStay(cfg, db, c.ctx, Decide(cfg, db, c).tx, t, id);
  }

  /** Every decision in a run was made by a call of its decider, whose time and reason it keeps, and
      which separation of duties let through; so with the flag on, a requester who decided was a trusted
      actor. */
  lemma {:induction false} DecisionsHaveDeciders(cfg: Config, calls: seq<Call>, id: string)
    requires ConfigValid(cfg)
    requires id in Run(cfg, calls).approvals && Run(cfg, calls).approvals[id].decidedBy.Some?
    ensures var a := Run(cfg, calls).approvals[id];
            exists c | c in calls ::
              && c.op.DecideOp? && c.op.id == id && c.ctx.tenantId == a.tenantId
              && Some(c.ctx.actorId) == a.decidedBy && a.decisionReason == c.op.reason && a.decidedAt == Some(c.now)
              && (c.op.approved <==> a.status.Approved?)
              && (cfg.separationOfDuties && a.requestedBy == c.ctx.actorId ==> Trusted(c.ctx))
  {
    var init, c := calls[..|calls| - 1], calls[|calls| - 1];
    assert calls == init + [c];
    var db := Run(cfg, init);
    RunIsWellFormed(cfg, init);
    EveryCallIsLawful(cfg, db, c);
    if id in db.approvals && db.approvals[id] == Run(cfg, calls).approvals[id] {
      DecisionsHaveDeciders(cfg, init, id);
      var d :| d in init && d.op.DecideOp? && d.op.id == id && d.ctx.tenantId == db.approvals[id].tenantId
               && Some(d.ctx.actorId) == db.approvals[id].decidedBy
               && db.approvals[id].decisionReason == d.op.reason && db.approvals[id].decidedAt == Some(d.now)
               && (d.op.approved <==> db.approvals[id].status.Approved?)
               && (cfg.separationOfDuties && db.approvals[id].requestedBy == d.ctx.actorId ==> Trusted(d.ctx));
      assert d in calls;
    } else {
      OnlyDecideDecides(cfg, db, c, id);
      assert c in calls;
    }
  }

  lemma OnlyDecideDecides(cfg: Config, db: Db, c: Call, id: string)
    requires WellFormed(db) && LawfulTx(cfg, db, c.ctx, Decide(cfg, db, c).tx)
    requires id in Step(cfg, db, c).approvals && Step(cfg, db, c).approvals[id].decidedBy.Some?
    requires !(id in db.approvals && db.approvals[id] == Step(cfg, db, c).approvals[id])
    ensures c.op.DecideOp? && c.op.id == id
    ensures var a := Step(cfg, db, c).approvals[id];
            && c.ctx.tenantId == a.tenantId && Some(c.ctx.actorId) == a.decidedBy
            && a.decisionReason == c.op.reason && a.decidedAt == Some(c.now)
            && (c.op.approved <==> a.status.Approved?)
            && !S.SelfDecision(cfg, c.ctx, a)
  {
    hide Decide;
    var tx := Decide(cfg, db, c).tx;
    OnlyDecisionsDecide(cfg, db, c.ctx, tx, id);
    OnlyDecideOpDecides(cfg, db, c);
  }

  lemma OnlyDecisionsDecide(cfg: Config, db: Db, ctx: AuthContext, tx: Tx, id: string)
    requires WellFormed(db) && LawfulTx(cfg, db, ctx, tx)
    requires id in Commit(db, tx).approvals && Commit(db, tx).approvals[id].decidedBy.Some?
    requires !(id in db.approvals && db.approvals[id] == Commit(db, tx).approvals[id])
    ensures tx.DecideApproval? && tx.approval.id == id && tx.approval == Commit(db, tx).approvals[id]
    ensures tx.approval.tenantId == ctx.tenantId && tx.approval.decidedBy == Some(ctx.actorId)
    ensures !S.SelfDecision(cfg, ctx, tx.approval)
  {
  }

  lemma OnlyDecideOpDecides(cfg: Config, db: Db, c: Call)
    requires WellFormed(db) && Decide(cfg, db, c).tx.DecideApproval?
    ensures c.op.DecideOp? && c.op.id == Decide(cfg, db, c).tx.approval.id
    ensures var a := Decide(cfg, db, c).tx.approval;
            && (c.op.approved <==> a.status.Approved?)
            && a.decisionReason == c.op.reason && a.decidedAt == Some(c.now)
  {
    hide S.CreateRecord, S.UpdateRecord, S.TransitionRecord, S.DecideApproval, S.Relate, S.SetLifecycle, S.CreateTask,
      S.CompleteTask, S.RunReportDef, S.ListRecords, S.ScanRecords;
    match c.op {
      case CreateOp(new_, id) => CreatesDecideNothing(cfg, db, c.ctx, new_, id, c.now);
      case UpdateOp(id, patch) => UpdatesDecideNothing(cfg, db, c.ctx, id, patch, c.now);
      case TransitionOp(id, key, reason, approvalId, taskId) =>
        TransitionsDecideNothing(cfg, db, c.ctx, id, key, reason, approvalId, taskId, c.now);
      case DecideOp(id, approved, reason) => DecisionNamesApproval(cfg, db, c.ctx, id, approved, reason, c.now);
      case _ => OthersDecideNothing(cfg, db, c);
    }
  }

  lemma CreatesDecideNothing(cfg: Config, db: Db, ctx: AuthContext, new_: S.NewRecord, id: string, now: int)
    ensures !S.CreateRecord(cfg, db, ctx, new_, id, now).tx.DecideApproval?
  {
  }

  lemma UpdatesDecideNothing(
    cfg: Config, db: Db, ctx: AuthContext, id: string, patch: seq<(string, Value)>, now: int)
    ensures !S.UpdateRecord(cfg, db, ctx, id, patch, now).tx.DecideApproval?
  {
  }

  lemma TransitionsDecideNothing(
    cfg: Config, db: Db, ctx: AuthContext, id: string, key: string, reason: Option<string>, approvalId: string,
    taskId: string, now: int)
    ensures !S.TransitionRecord(cfg, db, ctx, id, key, reason, approvalId, taskId, now).tx.DecideApproval?
  {
  }

  lemma DecisionNamesApproval(
    cfg: Config, db: Db, ctx: AuthContext, id: string, approved: bool, reason: Option<string>, now: int)
    requires WellFormed(db)
    ensures var tx := S.DecideApproval(cfg, db, ctx, id, approved, reason, now).tx;
            tx.DecideApproval? ==>
              && tx.approval.id == id && (approved <==> tx.approval.status.Approved?)
              && tx.approval.decisionReason == reason && tx.approval.decidedAt == Some(now)
  {
  }

  lemma OthersDecideNothing(cfg: Config, db: Db, c: Call)
    requires !c.op.CreateOp? && !c.op.UpdateOp? && !c.op.TransitionOp? && !c.op.DecideOp?
    ensures !Decide(cfg, db, c).tx.DecideApproval?
  {
    hide Rbac.Authorized, ReadPath.ListPage, ReadPath.Scan;
  }
}
