/** How one call's effect shows in the next: writes read back, undone writes, offers that hold. */
module CallAgreement {
  import opened Values
  import opened Contracts
  import opened Rbac
  import opened Store
  import opened Lawful
  import S = Services

  /** What create and update reply is what a reader of the record then gets. */
  lemma WritesReadBack(
    cfg: Config, db: Db, ctx: AuthContext, new_: S.NewRecord, id: string, patch: seq<(string, Value)>, now: int,
    later: int)
    ensures var o := S.CreateRecord(cfg, db, ctx, new_, id, now);
            o.reply.Ok? ==>
              && id !in db.records && id in Commit(db, o.tx).records
              && var stored := Commit(db, o.tx).records[id];
                 Authorized(cfg, ctx, Read, ObjectResource(stored.objectType), Some(stored))
                 ==> S.GetRecord(cfg, Commit(db, o.tx), ctx, id, later).reply == o.reply
    ensures var o := S.UpdateRecord(cfg, db, ctx, id, patch, now);
            WellFormed(db) && o.reply.Ok? ==>
              && id in Commit(db, o.tx).records
              && var stored := Commit(db, o.tx).records[id];
                 Authorized(cfg, ctx, Read, ObjectResource(stored.objectType), Some(stored))
                 ==> S.GetRecord(cfg, Commit(db, o.tx), ctx, id, later).reply == o.reply
  {
    hide S.ApplyEdits, S.DataFits, S.Defaults, Authorized;
  }

  /** Restoring undoes archiving: an active record comes back as it was, but for its update time. */
  lemma RestoreUndoesArchive(cfg: Config, db: Db, ctx: AuthContext, id: string, now: int, later: int)
    requires WellFormed(db) && id in db.records
    requires db.records[id].lifecycle.Active? && db.records[id].archivedAt.None?
    requires S.SetLifecycle(cfg, db, ctx, id, Archived, now).reply.Ok?
    requires var archived := Commit(db, S.SetLifecycle(cfg, db, ctx, id, Archived, now).tx);
             S.SetLifecycle(cfg, archived, ctx, id, Active, later).reply.Ok?
    ensures var archived := Commit(db, S.SetLifecycle(cfg, db, ctx, id, Archived, now).tx);
            var restored := Commit(archived, S.SetLifecycle(cfg, archived, ctx, id, Active, later).tx);
            && archived.records[id].lifecycle.Archived? && archived.records[id].archivedAt == Some(now)
            && restored.records == db.records[id := db.records[id].(updatedAt := later)]
            && restored.order == db.order
  {
  }

  /** The transitions offered are those that work: a key is among them exactly when asking for it
      does not fail for want of an edge from the record's state. */
  lemma OfferedExactlyWhenTakable(
    cfg: Config, db: Db, ctx: AuthContext, id: string, key: string, reason: Option<string>, approvalId: string,
    taskId: string, now: int)
    requires S.AvailableTransitions(cfg, db, ctx, id, now).reply.Ok?
    requires LoadRecord(db, ctx.tenantId, id).Some?
    requires WorkflowOf(cfg, ctx.tenantId, db.records[id].objectType).Some?
    ensures (exists t | t in S.AvailableTransitions(cfg, db, ctx, id, now).reply.value :: t.key == key) <==>
            S.TransitionRecord(cfg, db, ctx, id, key, reason, approvalId, taskId, now).reply != Err(FailedPrecondition)
  {
  }

  /** A gated transition leaves the record alone and files a pending approval, under the id it
      replies with, that names exactly the move it replies with. */
  lemma RequestsAreFiled(
    cfg: Config, db: Db, ctx: AuthContext, id: string, key: string, reason: Option<string>, approvalId: string,
    taskId: string, now: int, later: int)
    requires var o := S.TransitionRecord(cfg, db, ctx, id, key, reason, approvalId, taskId, now);
             o.reply.Ok? && o.reply.value.approvalId.Some?
    requires Authorized(cfg, ctx, Read, S.APPROVAL_RESOURCE, None)
    ensures var o := S.TransitionRecord(cfg, db, ctx, id, key, reason, approvalId, taskId, now);
            var move, db' := o.reply.value, Commit(db, o.tx);
            var fetched := S.GetApproval(cfg, db', ctx, move.approvalId.value, later).reply;
            && db'.records == db.records
            && id in db.records
            && fetched.Ok? && fetched.value.status.Pending? && fetched.value.requestedBy == ctx.actorId
            && fetched.value.relatedRecordId == Some(move.recordId) && fetched.value.targetState == Some(move.to)
            && RequestedFrom(fetched.value) == Some(move.from)
            && fetched.value.tenantId == ctx.tenantId && fetched.value.orgId == ctx.orgId
            && fetched.value.relatedObjectType == Some(db.records[id].objectType)
            && fetched.value.transitionKey == Some(key) && fetched.value.createdAt == now
            && fetched.value.decidedBy.None? && fetched.value.decidedAt.None?
            && var wf := WorkflowOf(cfg, ctx.tenantId, db.records[id].objectType);
               wf.Some? && exists t | t in wf.value.transitions ::
                 t.key == key && t.from == move.from && t.to == move.to && t.approvalPolicy == fetched.value.policy
  {
    hide Authorized;
    var r := db.records[id];
    var wf := WorkflowOf(cfg, ctx.tenantId, r.objectType).value;
    var t := TransitionFrom(wf.transitions, S.CurrentState(r, wf), key);
  }

  /** The move is stored, and logged with its reason and both states. */
  predicate MoveLogged(db: Db, after: Db, id: string, move: S.TransitionResult, reason: Option<string>, now: int) {
    && id in db.records && |after.audit| == |db.audit| + 1
    && after.records == db.records[id := db.records[id].(workflowState := Some(move.to), updatedAt := now)]
    && var e := after.audit[|db.audit|];
    && e.verb == Transitioned && e.targetId == Some(id) && e.reason == reason && e.approvalId.None?
    && e.before == Some(Obj(map["workflow_state" := Str(move.from)]))
    && e.after == Some(Obj(map["workflow_state" := Str(move.to)]))
  }

  /** The request is logged with its reason and both states, and its caller's open task names it. */
  predicate RequestLogged(
    db: Db, after: Db, ctx: AuthContext, id: string, key: string, move: S.TransitionResult, approvalId: string,
    taskId: string, reason: Option<string>)
  {
    && |after.audit| == |db.audit| + 1
    && (var e := after.audit[|db.audit|];
        && e.verb == TransitionRequested && e.targetId == Some(id) && e.reason == reason
        && e.approvalId == Some(approvalId)
        && e.before == Some(Obj(map["state" := Str(move.from)]))
        && e.after == Some(Obj(map["requested_state" := Str(move.to)])))
    && taskId !in db.tasks && taskId in after.tasks
    && var t := after.tasks[taskId];
    && t.kind == "approval" && t.status == Open && t.assigneeId.None? && t.relatedRecordId == Some(id)
    && t.data == Obj(map["approval_id" := Str(approvalId), "transition" := Str(key)])
    && t.tenantId == ctx.tenantId && t.orgId == ctx.orgId && t.createdBy == ctx.actorId
  }

  lemma TakenIsLogged(
    db: Db, ctx: AuthContext, r: Record, t: Transition, current: string, reason: Option<string>, approvalId: string,
    taskId: string, now: int)
    requires r.id in db.records && db.records[r.id] == r
    requires S.TakeTransition(db, ctx, r, t, current, reason, approvalId, taskId, now).reply.Ok?
    ensures var o := S.TakeTransition(db, ctx, r, t, current, reason, approvalId, taskId, now);
            var move, after := o.reply.value, Commit(db, o.tx);
            && move.recordId == r.id
            && (move.approvalId.None? ==> MoveLogged(db, after, r.id, move, reason, now))
            && (move.approvalId.Some? ==>
                  move.approvalId == Some(approvalId)
                  && RequestLogged(db, after, ctx, r.id, t.key, move, approvalId, taskId, reason))
  {
  }

  /** Every move is stored and logged with its reason and both states; a requested one is logged with
      its approval, and its task names that and the transition. */
  lemma MovesAreLogged(
    cfg: Config, db: Db, ctx: AuthContext, id: string, key: string, reason: Option<string>, approvalId: string,
    taskId: string, now: int)
    requires WellFormed(db)
    requires S.TransitionRecord(cfg, db, ctx, id, key, reason, approvalId, taskId, now).reply.Ok?
    ensures var o := S.TransitionRecord(cfg, db, ctx, id, key, reason, approvalId, taskId, now);
            var move, after := o.reply.value, Commit(db, o.tx);
            && move.recordId == id
            && (move.approvalId.None? ==> MoveLogged(db, after, id, move, reason, now))
            && (move.approvalId.Some? ==>
                  move.approvalId == Some(approvalId)
                  && RequestLogged(db, after, ctx, id, key, move, approvalId, taskId, reason))
  {
    hide Authorized, S.TakeTransition, Commit, MoveLogged, RequestLogged;
    var r := db.records[id];
    var wf := WorkflowOf(cfg, ctx.tenantId, r.objectType).value;
    var t := TransitionFrom(wf.transitions, S.CurrentState(r, wf), key).value;
    TakenIsLogged(db, ctx, r, t, S.CurrentState(r, wf), reason, approvalId, taskId, now);
  }

  lemma {:induction false} RelationsOfHas(rels: seq<Relation>, tenantId: string, recordId: string, rel: Relation)
    ensures rel in RelationsOf(rels, tenantId, recordId) <==>
            rel in rels && rel.tenantId == tenantId && Touches(rel, recordId)
  {
    if rels != [] {
      RelationsOfHas(rels[..|rels| - 1], tenantId, recordId, rel);
    }
  }

  /** Some listed edge leads to the record with the type, in the direction. */
  predicate Leads(edges: seq<S.Edge>, to: string, relationType: string, outgoing: bool) {
    exists e | e in edges :: e.recordId == to && e.relationType == relationType && e.outgoing == outgoing
  }

  lemma SeenAmong(rels: seq<Relation>, tenantId: string, recordId: string, rel: Relation)
    requires rel in rels && rel.tenantId == tenantId && Touches(rel, recordId)
    ensures S.EdgeSeenFrom(rel, recordId) in S.EdgesSeenFrom(RelationsOf(rels, tenantId, recordId), recordId)
  {
    RelationsOfHas(rels, tenantId, recordId, rel);
    var found := RelationsOf(rels, tenantId, recordId);
    var i :| 0 <= i < |found| && found[i] == rel;
    assert S.EdgesSeenFrom(found, recordId)[i] == S.EdgeSeenFrom(rel, recordId);
  }

  lemma EdgeIsStored(db: Db, rel: Relation, e: Event)
    ensures exists x :: x in Commit(db, InsertRelation(rel, e)).relations && SameEdge(x, rel)
  {
    if !exists x | x in db.relations :: SameEdge(x, rel) {
      assert rel in db.relations + [rel] && SameEdge(rel, rel);
    }
  }

  lemma NoSecondEdge(db: Db, rel: Relation, x: Relation, e: Event)
    requires x in db.relations && SameEdge(x, rel)
    ensures Commit(db, InsertRelation(rel, e)).relations == db.relations
  {
  }

  lemma EdgeShows(cfg: Config, db: Db, ctx: AuthContext, rel: Relation, recordId: string, now: int)
    requires rel in db.relations && rel.tenantId == ctx.tenantId && Touches(rel, recordId)
    ensures var reply := S.GetRelations(cfg, db, ctx, recordId, now).reply;
            reply.Ok? ==>
              var e := S.EdgeSeenFrom(rel, recordId); Leads(reply.value, e.recordId, rel.relationType, e.outgoing)
  {
    hide Authorized;
    SeenAmong(db.relations, ctx.tenantId, recordId, rel);
  }

  /** A relation made is logged at its source, and shows from both ends, outgoing from its source and
      incoming at its target. */
  lemma RelationsShowFromBothEnds(
    cfg: Config, db: Db, ctx: AuthContext, fromId: string, toId: string, relationType: string, id: string, now: int,
    later: int)
    requires fromId != toId
    requires S.Relate(cfg, db, ctx, fromId, toId, relationType, id, now).reply.Ok?
    ensures var db' := Commit(db, S.Relate(cfg, db, ctx, fromId, toId, relationType, id, now).tx);
            var out := S.GetRelations(cfg, db', ctx, fromId, later).reply;
            var back := S.GetRelations(cfg, db', ctx, toId, later).reply;
            && |db'.audit| == |db.audit| + 1 && db'.audit[|db.audit|].targetId == Some(fromId)
            && db'.audit[|db.audit|].verb == RelationCreated
            && db'.audit[|db.audit|].after == Some(Obj(map["to" := Str(toId), "type" := Str(relationType)]))
            && (out.Ok? ==> Leads(out.value, toId, relationType, true))
            && back.Ok? && Leads(back.value, fromId, relationType, false)
  {
    hide Authorized, Leads, RelationsOf, S.EdgesSeenFrom;
    var tx := S.Relate(cfg, db, ctx, fromId, toId, relationType, id, now).tx;
    var db' := Commit(db, tx);
    EdgeIsStored(db, tx.relation, tx.event);
    var rel :| rel in db'.relations && SameEdge(rel, tx.relation);
    EdgeShows(cfg, db', ctx, rel, fromId, later);
    EdgeShows(cfg, db', ctx, rel, toId, later);
  }

  /** Making a relation again adds no row, under whatever id. */
  lemma RelatingAgainAddsNothing(
    cfg: Config, db: Db, ctx: AuthContext, fromId: string, toId: string, relationType: string, id: string,
    again: string, now: int, later: int)
    requires S.Relate(cfg, db, ctx, fromId, toId, relationType, id, now).reply.Ok?
    ensures var db' := Commit(db, S.Relate(cfg, db, ctx, fromId, toId, relationType, id, now).tx);
            Commit(db', S.Relate(cfg, db', ctx, fromId, toId, relationType, again, later).tx).relations == db'.relations
  {
    hide Authorized;
    var tx := S.Relate(cfg, db, ctx, fromId, toId, relationType, id, now).tx;
    var db' := Commit(db, tx);
    EdgeIsStored(db, tx.relation, tx.event);
    var rel :| rel in db'.relations && SameEdge(rel, tx.relation);
    var second := S.Relate(cfg, db', ctx, fromId, toId, relationType, again, later).tx;
    NoSecondEdge(db', second.relation, rel, second.event);
  }

  /** The stored relation as the record sees it: outgoing if it starts there, else incoming. */
  predicate SeenAs(rel: Relation, recordId: string, e: S.Edge) {
    && e.id == rel.id && e.relationType == rel.relationType && e.createdAt == rel.createdAt
    && if rel.fromRecord == recordId then e.outgoing && e.recordId == rel.toRecord
       else !e.outgoing && e.recordId == rel.fromRecord
  }

  /** The edges replied are exactly the tenant's relations that start or end at the record. */
  lemma RelationsAreExact(cfg: Config, db: Db, ctx: AuthContext, id: string, now: int, e: S.Edge)
    requires S.GetRelations(cfg, db, ctx, id, now).reply.Ok?
    ensures e in S.GetRelations(cfg, db, ctx, id, now).reply.value
            <==> exists rel | rel in db.relations ::
                   && rel.tenantId == ctx.tenantId && (rel.fromRecord == id || rel.toRecord == id)
                   && SeenAs(rel, id, e)
  {
    hide Authorized, RelationsOf;
    var found := RelationsOf(db.relations, ctx.tenantId, id);
    var edges := S.EdgesSeenFrom(found, id);
    if e in edges {
      var i :| 0 <= i < |edges| && edges[i] == e;
      assert found[i] in found;
      RelationsOfHas(db.relations, ctx.tenantId, id, found[i]);
      assert SeenAs(found[i], id, e);
    }
    if rel :| rel in db.relations && rel.tenantId == ctx.tenantId && (rel.fromRecord == id || rel.toRecord == id)
              && SeenAs(rel, id, e) {
      SeenAmong(db.relations, ctx.tenantId, id, rel);
      assert e == S.EdgeSeenFrom(rel, id);
    }
  }

  /** A task made is open, in its maker's tenant and organization and name, and just as it was asked
      for; its maker and its assignee can fetch it; and its making is logged. */
  lemma TasksReadBack(
    cfg: Config, db: Db, ctx: AuthContext, new_: S.NewTask, id: string, now: int, later: int)
    requires WellFormed(db) && S.CreateTask(cfg, db, ctx, new_, id, now).reply.Ok?
    ensures var made := Commit(db, S.CreateTask(cfg, db, ctx, new_, id, now).tx);
            var task := Task(id, ctx.tenantId, ctx.orgId, new_.kind, new_.title, new_.assigneeId, Open,
                             new_.relatedObjectType, new_.relatedRecordId, new_.data, ctx.actorId, now, now);
            && S.CreateTask(cfg, db, ctx, new_, id, now).reply == Ok(task)
            && S.GetTask(cfg, made, ctx, id, later).reply == Ok(task)
            && |made.audit| == |db.audit| + 1 && made.audit[|db.audit|].targetId == Some(id)
            && made.audit[|db.audit|].verb == TaskCreated
            && made.audit[|db.audit|].after == Some(Obj(map["kind" := Str(new_.kind), "title" := Str(new_.title)]))
            && (new_.assigneeId.Some? ==>
                  S.GetTask(cfg, made, ctx.(actorId := new_.assigneeId.value), id, later).reply == Ok(task))
  {
    hide Authorized;
  }

  /** Whoever can fetch a task can finish it, as done or as cancelled and as nothing else, and once: it
      keeps everything but its status and update time, and the event tells the status before and after. */
  lemma TasksFinishOnce(
    cfg: Config, db: Db, ctx: AuthContext, id: string, status: TaskStatus, again: TaskStatus, now: int, later: int)
    requires WellFormed(db) && S.GetTask(cfg, db, ctx, id, now).reply.Ok?
    ensures var task := S.GetTask(cfg, db, ctx, id, now).reply.value;
            var out := S.CompleteTask(cfg, db, ctx, id, status, now);
            && (out.reply.Ok?
                <==> (status == Done || status == Cancelled) && (task.status == Open || task.status == InProgress))
            && (out.reply.Ok? ==>
                  var after := Commit(db, out.tx);
                  && out.reply.value == task.(status := status, updatedAt := now)
                  && after.tasks == db.tasks[id := out.reply.value]
                  && after.audit[..|after.audit| - 1] == db.audit
                  && var e := after.audit[|after.audit| - 1];
                  && e.verb == TaskUpdated && e.targetId == Some(id)
                  && e.before == Some(Obj(map["status" := Str(if task.status == Open then "open" else "in_progress")]))
                  && e.after == Some(Obj(map["status" := Str(if status == Done then "done" else "cancelled")]))
                  && !S.CompleteTask(cfg, after, ctx, id, again, later).reply.Ok?)
  {
    hide Authorized;
  }
}
