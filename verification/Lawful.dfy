/** What every committed transaction is guaranteed to be, whatever the call: the bridge between
    the services and the invariants of whole runs. */
module Lawful {
  import opened Values
  import opened Contracts
  import opened Rbac
  import opened Store
  import opened Machine
  import S = Services

  // ---- data rules ---------------------------------------------------------------------------

  predicate KeysDeclared(otype: ObjectType, data: Fields) {
    forall k | k in data :: FieldOf(otype.fields, k).Some?
  }

  /** System fields hold exactly their declared default, or nothing if they have none. */
  predicate SystemAtDefault(otype: ObjectType, data: Fields) {
    forall f | f in otype.fields && f.system :: Lookup(data, f.key) == f.default
  }

  /** The schema rules a stored record's data obeys. */
  predicate DataLawful(cfg: Config, tenantId: string, objectType: string, data: Fields) {
    var otype := LoadType(cfg, tenantId, objectType);
    otype.Some? && KeysDeclared(otype.value, data) && SystemAtDefault(otype.value, data)
    && S.DataFits(otype.value, data, cfg.isTimestamp)
  }

  /** May edits by a holder of `grants` change the field? */
  predicate Editable(otype: ObjectType, grants: seq<Grant>, key: string) {
    var f := FieldOf(otype.fields, key);
    f.Some? && !f.value.system && FieldPermitted(grants, otype, key)
  }

  /** Applied edits touch only declared, non-system fields the editor may write, and only
      fields they name. */
  lemma {:induction false} EditsTouchOnlyEditable(
    otype: ObjectType, grants: seq<Grant>, data: Fields, edits: seq<(string, Value)>, clearing: bool, key: string)
    requires S.ApplyEdits(otype, grants, data, edits, clearing).Applied?
    requires var after := S.ApplyEdits(otype, grants, data, edits, clearing).data;
             Lookup(after, key) != Lookup(data, key)
    ensures Editable(otype, grants, key)
    ensures exists e | e in edits :: e.0 == key
  {
    if edits != [] {
      var init, last := edits[..|edits| - 1], edits[|edits| - 1];
      var before := S.ApplyEdits(otype, grants, data, init, clearing);
      if last.0 == key {
        assert last in edits;
      } else {
        EditsTouchOnlyEditable(otype, grants, data, init, clearing, key);
      }
    }
  }

  lemma {:induction false} DefaultsAreDeclared(fields: seq<FieldDef>, f: FieldDef)
    requires UniqueKeys(fields) && f in fields
    ensures Lookup(S.Defaults(fields), f.key) == f.default
  {
    var init, last := fields[..|fields| - 1], fields[|fields| - 1];
    if f == last {
      if f.key in S.Defaults(init) { DefaultsNamed(init, f.key); }
    } else {
      assert f in init;
      DefaultsAreDeclared(init, f);
    }
  }

  lemma {:induction false} DefaultsNamed(fields: seq<FieldDef>, key: string)
    requires key in S.Defaults(fields)
    ensures exists f | f in fields :: f.key == key
  {
    if fields != [] {
      var init, last := fields[..|fields| - 1], fields[|fields| - 1];
      if last.key == key && last.default.Some? {
        assert last in fields;
      } else {
        DefaultsNamed(init, key);
      }
    }
  }

  /** A new record's data obeys the schema rules. */
  lemma CreatedDataLawful(
    cfg: Config, tenantId: string, objectType: string, otype: ObjectType, grants: seq<Grant>,
    edits: seq<(string, Value)>, data: Fields)
    requires LoadType(cfg, tenantId, objectType) == Some(otype) && UniqueKeys(otype.fields)
    requires S.ApplyEdits(otype, grants, S.Defaults(otype.fields), edits, false) == S.Applied(data)
    requires S.DataFits(otype, data, cfg.isTimestamp)
    ensures DataLawful(cfg, tenantId, objectType, data)
  {
    var start := S.Defaults(otype.fields);
    forall k | k in data ensures FieldOf(otype.fields, k).Some? {
      if Lookup(data, k) != Lookup(start, k) {
        EditsTouchOnlyEditable(otype, grants, start, edits, false, k);
      } else {
        DefaultsNamed(otype.fields, k);
      }
    }
    forall f | f in otype.fields && f.system ensures Lookup(data, f.key) == f.default {
      UniqueFieldOf(otype.fields, f);
      DefaultsAreDeclared(otype.fields, f);
      if Lookup(data, f.key) != Lookup(start, f.key) {
        EditsTouchOnlyEditable(otype, grants, start, edits, false, f.key);
      }
    }
  }

  /** An update takes lawful data to lawful data. */
  lemma UpdatedDataLawful(
    cfg: Config, tenantId: string, objectType: string, otype: ObjectType, grants: seq<Grant>,
    start: Fields, edits: seq<(string, Value)>, data: Fields)
    requires LoadType(cfg, tenantId, objectType) == Some(otype) && UniqueKeys(otype.fields)
    requires DataLawful(cfg, tenantId, objectType, start)
    requires S.ApplyEdits(otype, grants, start, edits, true) == S.Applied(data)
    requires S.DataFits(otype, data, cfg.isTimestamp)
    ensures DataLawful(cfg, tenantId, objectType, data)
  {
    forall k | k in data ensures FieldOf(otype.fields, k).Some? {
      if Lookup(data, k) != Lookup(start, k) {
        EditsTouchOnlyEditable(otype, grants, start, edits, true, k);
      }
    }
    forall f | f in otype.fields && f.system ensures Lookup(data, f.key) == f.default {
      UniqueFieldOf(otype.fields, f);
      if Lookup(data, f.key) != Lookup(start, f.key) {
        EditsTouchOnlyEditable(otype, grants, start, edits, true, f.key);
      }
    }
  }

  // ---- lawful transactions --------------------------------------------------------------------

  /** The event is the caller's, about the target, with no approval attached. */
  predicate PlainEvent(e: Event, ctx: AuthContext, verb: Verb, targetId: Option<string>) {
    e.tenantId == ctx.tenantId && e.actorId == ctx.actorId && e.verb == verb && e.targetId == targetId
    && e.approvalId.None?
  }

  predicate ApprovalEvent(e: Event, ctx: AuthContext, verb: Verb, targetId: Option<string>, approvalId: string) {
    e.tenantId == ctx.tenantId && e.actorId == ctx.actorId && e.verb == verb && e.targetId == targetId
    && e.approvalId == Some(approvalId)
  }

  /** Asking for the transition's key in its source state gives this transition: no earlier one
      with the same key and source comes before it. */
  predicate Offered(wf: Workflow, t: Transition) {
    t in wf.transitions && TransitionFrom(wf.transitions, t.from, t.key) == Some(t)
  }

  /** A declared edge, with this gate, that a request can take. */
  ghost predicate Takable(wf: Workflow, gated: bool, from: string, to: string) {
    exists t | t in wf.transitions :: Offered(wf, t) && t.requiresApproval == gated && t.from == from && t.to == to
  }

  ghost predicate TakableEdge(
    cfg: Config, tenantId: string, objectType: string, gated: bool, from: string, to: string)
  {
    var wf := WorkflowOf(cfg, tenantId, objectType);
    wf.Some? && Takable(wf.value, gated, from, to)
  }

  /** The state the record counts as being in under its type's workflow. */
  function StateOf(cfg: Config, r: Record): Option<string> {
    if r.workflowState.Some? then r.workflowState else InitialState(cfg, r.tenantId, r.objectType)
  }

  const FROM := "from"

  /** The state an approval request recorded as its starting point. */
  function RequestedFrom(a: Approval): Option<string> {
    if a.data.Obj? && FROM in a.data.fields && a.data.fields[FROM].Str? then Some(a.data.fields[FROM].s) else None
  }

  ghost predicate LawfulInsert(cfg: Config, db: Db, ctx: AuthContext, r: Record, e: Event) {
    && r.tenantId == ctx.tenantId && r.id !in db.records
    && DataLawful(cfg, r.tenantId, r.objectType, r.data)
    && r.lifecycle.Active?
    && r.workflowState == InitialState(cfg, r.tenantId, r.objectType)
    && PlainEvent(e, ctx, RecordCreated, Some(r.id))
    && e.targetType == Some(r.objectType) && e.after == Some(Obj(r.data))
  }

  /** Only an update changes data, only archiving and restoring the lifecycle, and only a
      declared ungated edge the workflow state. */
  ghost predicate LawfulReplace(cfg: Config, db: Db, ctx: AuthContext, r: Record, e: Event) {
    && r.id in db.records
    && var o := db.records[r.id];
    && o.tenantId == r.tenantId == ctx.tenantId && o.objectType == r.objectType
    && PlainEvent(e, ctx, e.verb, Some(r.id))
    && (match e.verb
        case RecordUpdated =>
          && r.lifecycle == o.lifecycle && r.workflowState == o.workflowState
          && (DataLawful(cfg, o.tenantId, o.objectType, o.data)
              ==> DataLawful(cfg, r.tenantId, r.objectType, r.data))
          && e.before == Some(Obj(o.data)) && e.after == Some(Obj(r.data))
        case RecordArchived =>
          r.data == o.data && r.workflowState == o.workflowState && r.lifecycle.Archived?
        case RecordRestored =>
          r.data == o.data && r.workflowState == o.workflowState && r.lifecycle.Active?
        case Transitioned =>
          && r.data == o.data && r.lifecycle == o.lifecycle
          && StateOf(cfg, o).Some? && r.workflowState.Some?
          && TakableEdge(cfg, r.tenantId, r.objectType, false, StateOf(cfg, o).value, r.workflowState.value)
          && e.before == Some(S.StateJson(StateOf(cfg, o))) && e.after == Some(S.StateJson(r.workflowState))
        case _ => false)
  }

  ghost predicate LawfulRequest(cfg: Config, db: Db, ctx: AuthContext, a: Approval, t: Task, e: Event) {
    && a.id !in db.approvals && t.id !in db.tasks
    && a.tenantId == t.tenantId == ctx.tenantId
    && a.status.Pending? && a.requestedBy == ctx.actorId && a.decidedBy.None?
    && LinkedTo(t, ctx.tenantId, a.id) && t.status.Open?
    && a.relatedRecordId.Some? && a.targetState.Some?
    && LoadRecord(db, ctx.tenantId, a.relatedRecordId.value).Some?
    && (var o := db.records[a.relatedRecordId.value];
        StateOf(cfg, o).Some? && RequestedFrom(a) == StateOf(cfg, o)
        && TakableEdge(cfg, o.tenantId, o.objectType, true, StateOf(cfg, o).value, a.targetState.value))
    && ApprovalEvent(e, ctx, TransitionRequested, a.relatedRecordId, a.id)
  }

  ghost predicate LawfulDecision(
    cfg: Config, db: Db, ctx: AuthContext, a: Approval, moved: Option<Record>, log: Option<Event>)
  {
    && a.id in db.approvals
    && var o := db.approvals[a.id];
    && o.tenantId == ctx.tenantId && o.status.Pending? && !a.status.Pending?
    && a == o.(status := a.status, decidedBy := Some(ctx.actorId), decisionReason := a.decisionReason,
               decidedAt := a.decidedAt)
    && !S.SelfDecision(cfg, ctx, o)
    && var target := S.ApprovalTarget(db, ctx.tenantId, o);
    && (a.status.Rejected? ==>
          moved.None? && log.Some? && ApprovalEvent(log.value, ctx, ApprovalRejected, o.relatedRecordId, a.id))
    && (a.status.Approved? && o.relatedRecordId.Some? && o.targetState.Some? ==>
          && log.Some? && ApprovalEvent(log.value, ctx, Transitioned, o.relatedRecordId, a.id)
          && log.value.after == Some(S.StateJson(o.targetState))
          && (target.Some? ==>
                && moved.Some? && moved.value.workflowState == o.targetState
                && log.value.before == Some(S.StateJson(target.value.workflowState))
                && moved.value == target.value.(workflowState := o.targetState, updatedAt := moved.value.updatedAt))
          && (target.None? ==> moved.None?))
    && (a.status.Approved? && !(o.relatedRecordId.Some? && o.targetState.Some?) ==> moved.None? && log.None?)
  }

  ghost predicate LawfulTx(cfg: Config, db: Db, ctx: AuthContext, tx: Tx) {
    match tx
    case NoWrite => true
    case Denial(e) => PlainEvent(e, ctx, PermissionDenied, e.targetId)
    case InsertRecord(r, e) => LawfulInsert(cfg, db, ctx, r, e)
    case ReplaceRecord(r, e) => LawfulReplace(cfg, db, ctx, r, e)
    case InsertRelation(rel, e) =>
      rel.tenantId == ctx.tenantId && PlainEvent(e, ctx, RelationCreated, Some(rel.fromRecord))
    case RequestApproval(a, t, e) => LawfulRequest(cfg, db, ctx, a, t, e)
    case DecideApproval(a, moved, log) => LawfulDecision(cfg, db, ctx, a, moved, log)
    case InsertTask(t, e) =>
      t.id !in db.tasks && t.tenantId == ctx.tenantId && PlainEvent(e, ctx, TaskCreated, Some(t.id))
    case ReplaceTask(t, e) =>
      && t.id in db.tasks
      && var o := db.tasks[t.id];
      && o.tenantId == ctx.tenantId && (o.status.Open? || o.status.InProgress?)
      && t == o.(status := t.status, updatedAt := t.updatedAt)
      && PlainEvent(e, ctx, TaskUpdated, Some(t.id))
  }

  lemma CreateIsLawful(cfg: Config, db: Db, ctx: AuthContext, new_: S.NewRecord, id: string, now: int)
    requires ConfigValid(cfg)
    ensures LawfulTx(cfg, db, ctx, S.CreateRecord(cfg, db, ctx, new_, id, now).tx)
  {
    var out := S.CreateRecord(cfg, db, ctx, new_, id, now);
    if out.tx.InsertRecord? {
      var otype := LoadType(cfg, ctx.tenantId, new_.objectType).value;
      CreatedDataLawful(cfg, ctx.tenantId, new_.objectType, otype,
                        GrantsFor(cfg, ctx, Create, ObjectResource(new_.objectType), None),
                        new_.data, out.tx.record.data);
    }
  }

  lemma UpdateIsLawful(cfg: Config, db: Db, ctx: AuthContext, id: string, patch: seq<(string, Value)>, now: int)
    requires ConfigValid(cfg) && WellFormed(db)
    ensures LawfulTx(cfg, db, ctx, S.UpdateRecord(cfg, db, ctx, id, patch, now).tx)
  {
    var out := S.UpdateRecord(cfg, db, ctx, id, patch, now);
    if out.tx.ReplaceRecord? {
      var o, r := db.records[id], out.tx.record;
      var otype := LoadType(cfg, ctx.tenantId, o.objectType).value;
      if DataLawful(cfg, o.tenantId, o.objectType, o.data) {
        UpdatedDataLawful(cfg, o.tenantId, o.objectType, otype,
                          GrantsFor(cfg, ctx, Update, ObjectResource(o.objectType), Some(o)),
                          o.data, patch, r.data);
      }
    }
  }

  lemma TakenTransitionIsLawful(
    cfg: Config, db: Db, ctx: AuthContext, r: Record, wf: Workflow, t: Transition, reason: Option<string>,
    approvalId: string, taskId: string, now: int)
    requires WellFormed(db) && LoadRecord(db, ctx.tenantId, r.id) == Some(r)
    requires WorkflowOf(cfg, ctx.tenantId, r.objectType) == Some(wf)
    requires Offered(wf, t) && t.from == S.CurrentState(r, wf)
    ensures LawfulTx(cfg, db, ctx, S.TakeTransition(db, ctx, r, t, t.from, reason, approvalId, taskId, now).tx)
  {
    assert StateOf(cfg, r) == Some(t.from);
    assert TakableEdge(cfg, r.tenantId, r.objectType, t.requiresApproval, t.from, t.to);
    TakenEdgeIsLawful(cfg, db, ctx, r, t, reason, approvalId, taskId, now);
  }

  lemma TakenEdgeIsLawful(
    cfg: Config, db: Db, ctx: AuthContext, r: Record, t: Transition, reason: Option<string>, approvalId: string,
    taskId: string, now: int)
    requires LoadRecord(db, ctx.tenantId, r.id) == Some(r) && StateOf(cfg, r) == Some(t.from)
    requires TakableEdge(cfg, r.tenantId, r.objectType, t.requiresApproval, t.from, t.to)
    ensures LawfulTx(cfg, db, ctx, S.TakeTransition(db, ctx, r, t, t.from, reason, approvalId, taskId, now).tx)
  {
    hide StateOf, TakableEdge, DataLawful;
  }

  lemma TransitionIsLawful(
    cfg: Config, db: Db, ctx: AuthContext, id: string, key: string, reason: Option<string>, approvalId: string,
    taskId: string, now: int)
    requires WellFormed(db)
    ensures LawfulTx(cfg, db, ctx, S.TransitionRecord(cfg, db, ctx, id, key, reason, approvalId, taskId, now).tx)
  {
    hide S.TakeTransition, LawfulRequest, LawfulReplace, Authorized, Offered;
    var r, wf := LoadRecord(db, ctx.tenantId, id), None;
    if r.Some? { wf := WorkflowOf(cfg, ctx.tenantId, r.value.objectType); }
    if r.Some? && wf.Some? {
      var t := TransitionFrom(wf.value.transitions, S.CurrentState(r.value, wf.value), key);
      if t.Some? {
        TakenTransitionIsLawful(cfg, db, ctx, r.value, wf.value, t.value, reason, approvalId, taskId, now);
      }
    }
  }

  lemma DecisionIsLawful(
    cfg: Config, db: Db, ctx: AuthContext, id: string, approved: bool, reason: Option<string>, now: int)
    requires WellFormed(db)
    ensures LawfulTx(cfg, db, ctx, S.DecideApproval(cfg, db, ctx, id, approved, reason, now).tx)
  {
  }

  lemma LifecycleIsLawful(cfg: Config, db: Db, ctx: AuthContext, id: string, to: Lifecycle, now: int)
    requires WellFormed(db)
    ensures LawfulTx(cfg, db, ctx, S.SetLifecycle(cfg, db, ctx, id, to, now).tx)
  {
  }

  lemma TaskIsLawful(cfg: Config, db: Db, ctx: AuthContext, id: string, status: TaskStatus, now: int)
    requires WellFormed(db)
    ensures LawfulTx(cfg, db, ctx, S.CompleteTask(cfg, db, ctx, id, status, now).tx)
  {
  }

  /** Every call, whatever it is asked, commits a lawful transaction. */
  lemma EveryCallIsLawful(cfg: Config, db: Db, c: Call)
    requires ConfigValid(cfg) && WellFormed(db)
    ensures LawfulTx(cfg, db, c.ctx, Decide(cfg, db, c).tx)
  {
    hide LawfulInsert, LawfulReplace, LawfulRequest, LawfulDecision, WellFormed, ConfigValid;
    hide S.CreateRecord, S.UpdateRecord, S.TransitionRecord, S.DecideApproval, S.SetLifecycle, S.CompleteTask;
    match c.op {
      case CreateOp(new_, id) => CreateIsLawful(cfg, db, c.ctx, new_, id, c.now);
      case UpdateOp(id, patch) => UpdateIsLawful(cfg, db, c.ctx, id, patch, c.now);
      case TransitionOp(id, key, reason, approvalId, taskId) =>
        TransitionIsLawful(cfg, db, c.ctx, id, key, reason, approvalId, taskId, c.now);
      case DecideOp(id, approved, reason) => DecisionIsLawful(cfg, db, c.ctx, id, approved, reason, c.now);
      case LifecycleOp(id, to) => LifecycleIsLawful(cfg, db, c.ctx, id, to, c.now);
      case CompleteTaskOp(id, status) => TaskIsLawful(cfg, db, c.ctx, id, status, c.now);
      case _ =>
    }
  }

  /** Lawful transactions keep the tables well formed. */
  lemma LawfulKeepsWellFormed(cfg: Config, db: Db, ctx: AuthContext, tx: Tx)
    requires WellFormed(db) && LawfulTx(cfg, db, ctx, tx)
    ensures WellFormed(Commit(db, tx))
  {
    hide WellFormed, Commit, LawfulInsert, LawfulReplace, LawfulRequest, LawfulDecision;
    match tx {
      case InsertRecord(r, e) => InsertKeepsWellFormed(db, r, e) by { InsertIsNew(cfg, db, ctx, r, e); }
      case ReplaceRecord(r, e) => ReplacementKeepsWellFormed(cfg, db, ctx, r, e);
      case RequestApproval(a, t, e) => RequestKeepsWellFormed(db, a, t, e);
      case DecideApproval(a, moved, log) => DecisionKeepsWellFormed(cfg, db, ctx, a, moved, log);
      case InsertTask(t, e) => TaskKeepsWellFormed(db, tx, t);
      case ReplaceTask(t, e) => TaskKeepsWellFormed(db, tx, t);
      case _ => OthersKeepWellFormed(db, tx);
    }
  }

  lemma InsertIsNew(cfg: Config, db: Db, ctx: AuthContext, r: Record, e: Event)
    requires LawfulInsert(cfg, db, ctx, r, e)
    ensures r.id !in db.records
  {
  }

  lemma ReplacementKeepsWellFormed(cfg: Config, db: Db, ctx: AuthContext, r: Record, e: Event)
    requires WellFormed(db) && LawfulReplace(cfg, db, ctx, r, e)
    ensures WellFormed(Commit(db, ReplaceRecord(r, e)))
  {
    hide TakableEdge, DataLawful, StateOf;
    ReplaceKeepsRows(db, r);
  }

  lemma RequestKeepsWellFormed(db: Db, a: Approval, t: Task, e: Event)
    requires WellFormed(db)
    ensures WellFormed(Commit(db, RequestApproval(a, t, e)))
  {
  }

  lemma DecisionKeepsWellFormed(
    cfg: Config, db: Db, ctx: AuthContext, a: Approval, moved: Option<Record>, log: Option<Event>)
    requires WellFormed(db) && LawfulDecision(cfg, db, ctx, a, moved, log)
    ensures WellFormed(Commit(db, DecideApproval(a, moved, log)))
  {
    hide WellFormed, Commit, LawfulDecision;
    if moved.Some? {
      DecisionMovesStoredRow(cfg, db, ctx, a, moved, log);
    }
    DecidedRowsWellFormed(db, a, moved, log);
  }

  lemma DecisionMovesStoredRow(
    cfg: Config, db: Db, ctx: AuthContext, a: Approval, moved: Option<Record>, log: Option<Event>)
    requires WellFormed(db) && LawfulDecision(cfg, db, ctx, a, moved, log) && moved.Some?
    ensures moved.value.id in db.records && db.records[moved.value.id].tenantId == moved.value.tenantId
  {
  }

  lemma DecidedRowsWellFormed(db: Db, a: Approval, moved: Option<Record>, log: Option<Event>)
    requires WellFormed(db)
    requires moved.Some? ==> moved.value.id in db.records && db.records[moved.value.id].tenantId == moved.value.tenantId
    ensures WellFormed(Commit(db, DecideApproval(a, moved, log)))
  {
    if moved.Some? {
      ReplaceKeepsRows(db, moved.value);
    }
  }

  lemma TaskKeepsWellFormed(db: Db, tx: Tx, t: Task)
    requires WellFormed(db) && (tx.InsertTask? || tx.ReplaceTask?) && tx.task == t
    ensures WellFormed(Commit(db, tx))
  {
  }

  lemma OthersKeepWellFormed(db: Db, tx: Tx)
    requires WellFormed(db) && (tx.NoWrite? || tx.Denial? || tx.InsertRelation?)
    ensures WellFormed(Commit(db, tx))
  {
  }

  lemma InsertKeepsWellFormed(db: Db, r: Record, e: Event)
    requires WellFormed(db) && r.id !in db.records
    ensures WellFormed(Commit(db, InsertRecord(r, e)))
  {
  }

  lemma ReplaceKeepsRows(db: Db, r: Record)
    requires WellFormed(db) && r.id in db.records && db.records[r.id].tenantId == r.tenantId
    ensures WellFormed(db.(records := db.records[r.id := r]))
  {
  }

  /** Every approval names a target state and a record stored in its own tenant. */
  ghost predicate Anchored(db: Db) {
    forall id | id in db.approvals ::
      var a := db.approvals[id];
      a.targetState.Some? && a.relatedRecordId.Some?
      && LoadRecord(db, a.tenantId, a.relatedRecordId.value).Some?
  }

  /** No transaction takes a record away or moves it to another tenant. */
  lemma RecordsStay(cfg: Config, db: Db, ctx: AuthContext, tx: Tx, tenantId: string, id: string)
    requires WellFormed(db) && LawfulTx(cfg, db, ctx, tx) && LoadRecord(db, tenantId, id).Some?
    ensures LoadRecord(Commit(db, tx), tenantId, id).Some?
  {
    hide DataLawful, TakableEdge;
  }

  /** An approval row names what it named before, unless it is the request just made. */
  lemma ApprovalsKeepSubject(cfg: Config, db: Db, ctx: AuthContext, tx: Tx, id: string)
    requires LawfulTx(cfg, db, ctx, tx) && id in Commit(db, tx).approvals
    ensures id in db.approvals ==>
              var a, a' := db.approvals[id], Commit(db, tx).approvals[id];
              a'.tenantId == a.tenantId && a'.relatedRecordId == a.relatedRecordId && a'.targetState == a.targetState
              && a'.data == a.data
    ensures id !in db.approvals ==> tx.RequestApproval? && tx.approval == Commit(db, tx).approvals[id]
  {
  }

  lemma LawfulKeepsAnchors(cfg: Config, db: Db, ctx: AuthContext, tx: Tx)
    requires WellFormed(db) && Anchored(db) && LawfulTx(cfg, db, ctx, tx)
    ensures Anchored(Commit(db, tx))
  {
    hide WellFormed, Commit, LoadRecord;
    forall id | id in Commit(db, tx).approvals
      ensures var a := Commit(db, tx).approvals[id];
              a.targetState.Some? && a.relatedRecordId.Some?
              && LoadRecord(Commit(db, tx), a.tenantId, a.relatedRecordId.value).Some?
    {
      var a := Commit(db, tx).approvals[id];
      ApprovalsKeepSubject(cfg, db, ctx, tx, id);
      RecordsStay(cfg, db, ctx, tx, a.tenantId, a.relatedRecordId.value);
    }
  }

  lemma {:induction false} RunIsWellFormed(cfg: Config, calls: seq<Call>)
    requires ConfigValid(cfg)
    ensures WellFormed(Run(cfg, calls)) && Anchored(Run(cfg, calls))
  {
    if calls != [] {
      var db, c := Run(cfg, calls[..|calls| - 1]), calls[|calls| - 1];
      RunIsWellFormed(cfg, calls[..|calls| - 1]);
      EveryCallIsLawful(cfg, db, c);
      LawfulKeepsWellFormed(cfg, db, c.ctx, Decide(cfg, db, c).tx);
      LawfulKeepsAnchors(cfg, db, c.ctx, Decide(cfg, db, c).tx);
    }
  }
}
