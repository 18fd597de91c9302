/** The kernel's service calls as they run: tables updated in place, statement by statement,
    each proved to commit exactly the transaction its specification decides. */
module KernelService {
  import opened Values
  import opened Contracts
  import opened Rbac
  import opened Sorting
  import opened Store
  import opened ReadPath
  import opened Analytics
  import S = Services

  class Kernel {
    const cfg: Config
    var records: map<string, Record>
    var order: seq<RowKey>
    var relations: seq<Relation>
    var approvals: map<string, Approval>
    var tasks: map<string, Task>
    var audit: seq<Event>

    constructor (cfg: Config)
      ensures this.cfg == cfg && Tables() == EMPTY_DB
    {
      this.cfg := cfg;
      records, order, relations, approvals, tasks, audit := map[], [], [], map[], map[], [];
    }

    /** The tables as one value. */
    function Tables(): Db
      reads this
    {
      Db(records, order, relations, approvals, tasks, audit)
    }

    // ---- shared steps -----------------------------------------------------------------

    method InsertAudit(e: Event)
      modifies this`audit
      ensures audit == old(audit) + [e]
    {
      audit := audit + [e];
    }

    method AuditDenial(ctx: AuthContext, what: string, resource: string, targetId: Option<string>, now: int)
      modifies this`audit
      ensures Tables() == Commit(old(Tables()), S.Deny(ctx, what, resource, targetId, now))
    {
      var e := S.EventFrom(ctx, PermissionDenied, Some(resource), targetId, None, None, now);
      InsertAudit(e.(reason := Some(S.DenialReason(what, resource))));
    }

    /** `grants_allow`: the access decision as a search through the actor's grants. */
    method SearchGrants(grants: seq<Grant>, ctx: AuthContext, action: Action, resource: string, target: Option<Record>)
      returns (allowed: bool)
      ensures allowed == GrantsAllow(cfg.advancedPermissions, grants, ctx, action, resource, target)
    {
      if Trusted(ctx) {
        return true;
      }
      for i := 0 to |grants|
        invariant forall g | g in grants[..i] ::
                    !GrantApplies(cfg.advancedPermissions, g, ctx, action, resource, target)
      {
        if GrantApplies(cfg.advancedPermissions, grants[i], ctx, action, resource, target) {
          return true;
        }
      }
      assert grants[..|grants|] == grants;
      return false;
    }

    /** A refusal is audited. */
    method Authorize(ctx: AuthContext, action: Action, resource: string, target: Option<Record>, now: int)
      returns (allowed: bool)
      modifies this`audit
      ensures allowed == Authorized(cfg, ctx, action, resource, target)
      ensures allowed ==> Tables() == old(Tables())
      ensures !allowed ==>
                Tables() == Commit(old(Tables()), S.DenyAction(ctx, action, resource, target, now))
    {
      var grants := LoadGrants(cfg.roles, ctx);
      allowed := SearchGrants(grants, ctx, action, resource, target);
      if !allowed {
        AuditDenial(ctx, ActionName(action), resource, S.TargetId(target), now);
      }
    }

    /** The field loop of create and update: stops at the first unknown, system-managed or
        forbidden field, and otherwise leaves the edited data. */
    method ApplyFieldEdits(
      otype: ObjectType, grants: seq<Grant>, start: Fields, edits: seq<(string, Value)>, clearing: bool)
      returns (result: S.Edits)
      ensures result == S.ApplyEdits(otype, grants, start, edits, clearing)
    {
      var data := start;
      for i := 0 to |edits|
        invariant S.ApplyEdits(otype, grants, start, edits[..i], clearing) == S.Applied(data)
      {
        assert edits[..i + 1][..i] == edits[..i];
        var (key, value) := edits[i];
        var field := FieldOf(otype.fields, key);
        if field.None? || field.value.system {
          StopsHere(otype, grants, start, edits, i + 1, clearing);
          return S.BadField;
        }
        if field.value.restricted && !FieldPermitted(grants, otype, key) {
          StopsHere(otype, grants, start, edits, i + 1, clearing);
          return S.DeniedField;
        }
        if clearing && value.Null? {
          data := data - {key};
        } else {
          data := data[key := value];
        }
      }
      assert edits[..|edits|] == edits;
      result := S.Applied(data);
    }

    /** Once an edit is refused, later edits do not matter. */
    static lemma StopsHere(
      otype: ObjectType, grants: seq<Grant>, start: Fields, edits: seq<(string, Value)>, n: nat, clearing: bool)
      requires n <= |edits| && !S.ApplyEdits(otype, grants, start, edits[..n], clearing).Applied?
      ensures S.ApplyEdits(otype, grants, start, edits, clearing)
              == S.ApplyEdits(otype, grants, start, edits[..n], clearing)
      decreases |edits|
    {
      if n == |edits| {
        assert edits[..n] == edits;
      } else {
        var init := edits[..|edits| - 1];
        assert init[..n] == edits[..n];
        StopsHere(otype, grants, start, init, n, clearing);
      }
    }

    method FillDefaults(fields: seq<FieldDef>) returns (data: Fields)
      ensures data == S.Defaults(fields)
    {
      data := map[];
      for i := 0 to |fields|
        invariant data == S.Defaults(fields[..i])
      {
        assert fields[..i + 1][..i] == fields[..i];
        if fields[i].default.Some? {
          data := data[fields[i].key := fields[i].default.value];
        }
      }
      assert fields[..|fields|] == fields;
    }

    method ValidateAgainstType(otype: ObjectType, data: Fields) returns (ok: bool)
      ensures ok == S.DataFits(otype, data, cfg.isTimestamp)
    {
      for i := 0 to |otype.fields|
        invariant forall f | f in otype.fields[..i] ::
                    ValueFits(f, if f.key in data then data[f.key] else Null, cfg.isTimestamp)
      {
        var f := otype.fields[i];
        if !ValueFits(f, if f.key in data then data[f.key] else Null, cfg.isTimestamp) {
          return false;
        }
      }
      assert otype.fields[..|otype.fields|] == otype.fields;
      return true;
    }

    // ---- records ------------------------------------------------------------------------

    method CreateRecord(ctx: AuthContext, new_: S.NewRecord, id: string, now: int) returns (reply: Result<Record>)
      modifies this
      ensures var out := S.CreateRecord(cfg, old(Tables()), ctx, new_, id, now);
              Tables() == Commit(old(Tables()), out.tx) && reply == out.reply
    {
      var resource := ObjectResource(new_.objectType);
      var allowed := Authorize(ctx, Create, resource, None, now);
      if !allowed { return Err(Forbidden); }
      var loaded := LoadType(cfg, ctx.tenantId, new_.objectType);
      if loaded.None? { return Err(NotFound); }
      var otype := loaded.value;
      var defaults := FillDefaults(otype.fields);
      var grants := GrantsFor(cfg, ctx, Create, resource, None);
      var edits := ApplyFieldEdits(otype, grants, defaults, new_.data, false);
      if edits.BadField? { return Err(Validation); }
      if edits.DeniedField? {
        AuditDenial(ctx, S.WRITE_FIELD, resource, None, now);
        return Err(Forbidden);
      }
      var valid := ValidateAgainstType(otype, edits.data);
      if !valid { return Err(Validation); }
      if id in records { return Err(Conflict); }
      var record := Record(id, new_.objectType, ctx.tenantId, ctx.orgId,
                           if new_.workspaceId.Some? then new_.workspaceId else ctx.workspaceId,
                           edits.data, Active, InitialState(cfg, ctx.tenantId, new_.objectType),
                           ctx.actorId, now, now, None);
      records := records[id := record];
      order := order + [RowKey(ctx.tenantId, id)];
      InsertAudit(S.EventFrom(ctx, RecordCreated, Some(new_.objectType), Some(id), None, Some(Obj(edits.data)), now));
      return Ok(ProjectForRead(cfg, ctx, record, otype));
    }

    method UpdateRecord(ctx: AuthContext, id: string, patch: seq<(string, Value)>, now: int)
      returns (reply: Result<Record>)
      modifies this
      ensures var out := S.UpdateRecord(cfg, old(Tables()), ctx, id, patch, now);
              Tables() == Commit(old(Tables()), out.tx) && reply == out.reply
    {
      var found := LoadRecord(Tables(), ctx.tenantId, id);
      if found.None? { return Err(NotFound); }
      var record := found.value;
      var resource := ObjectResource(record.objectType);
      var allowed := Authorize(ctx, Update, resource, Some(record), now);
      if !allowed { return Err(Forbidden); }
      var loaded := LoadType(cfg, ctx.tenantId, record.objectType);
      if loaded.None? { return Err(NotFound); }
      var before := record.data;
      var grants := GrantsFor(cfg, ctx, Update, resource, Some(record));
      var edits := ApplyFieldEdits(loaded.value, grants, before, patch, true);
      if edits.BadField? { return Err(Validation); }
      if edits.DeniedField? {
        AuditDenial(ctx, S.WRITE_FIELD, resource, Some(id), now);
        return Err(Forbidden);
      }
      var valid := ValidateAgainstType(loaded.value, edits.data);
      if !valid { return Err(Validation); }
      record := record.(data := edits.data, updatedAt := now);
      records := records[record.id := record];
      InsertAudit(S.EventFrom(ctx, RecordUpdated, Some(record.objectType), Some(id),
                              Some(Obj(before)), Some(Obj(record.data)), now));
      return Ok(ProjectForRead(cfg, ctx, record, loaded.value));
    }

    method SetLifecycle(ctx: AuthContext, id: string, to: Lifecycle, now: int) returns (reply: Result<()>)
      modifies this
      ensures var out := S.SetLifecycle(cfg, old(Tables()), ctx, id, to, now);
              Tables() == Commit(old(Tables()), out.tx) && reply == out.reply
    {
      var found := LoadRecord(Tables(), ctx.tenantId, id);
      if found.None? { return Err(NotFound); }
      var record := found.value;
      var action := match to { case Archived => Archive case Active => Restore };
      var allowed := Authorize(ctx, action, ObjectResource(record.objectType), Some(record), now);
      if !allowed { return Err(Forbidden); }
      var archivedAt := match to { case Archived => Some(now) case Active => None };
      records := records[record.id := record.(lifecycle := to, archivedAt := archivedAt, updatedAt := now)];
      InsertAudit(S.EventFrom(ctx, if to.Archived? then RecordArchived else RecordRestored,
                              Some(record.objectType), Some(id), None, None, now));
      return Ok(());
    }

    method Relate(
      ctx: AuthContext, fromId: string, toId: string, relationType: string, id: string, now: int)
      returns (reply: Result<S.Edge>)
      modifies this
      ensures var out := S.Relate(cfg, old(Tables()), ctx, fromId, toId, relationType, id, now);
              Tables() == Commit(old(Tables()), out.tx) && reply == out.reply
    {
      var from := LoadRecord(Tables(), ctx.tenantId, fromId);
      if from.None? { return Err(NotFound); }
      var to := LoadRecord(Tables(), ctx.tenantId, toId);
      if to.None? { return Err(NotFound); }
      var allowed := Authorize(ctx, Action.Relate, ObjectResource(from.value.objectType), from, now);
      if !allowed { return Err(Forbidden); }
      allowed := Authorize(ctx, Read, ObjectResource(to.value.objectType), to, now);
      if !allowed { return Err(Forbidden); }
      var rel := Relation(id, ctx.tenantId, fromId, toId, relationType, ctx.actorId, now);
      if !exists x | x in relations :: SameEdge(x, rel) {
        relations := relations + [rel];
      }
      InsertAudit(S.EventFrom(ctx, RelationCreated, Some(from.value.objectType), Some(fromId), None,
                              Some(Obj(map["to" := Str(toId), "type" := Str(relationType)])), now));
      return Ok(S.Edge(id, relationType, true, toId, now));
    }

    // ---- reads ----------------------------------------------------------------------------

    method GetRecord(ctx: AuthContext, id: string, now: int) returns (reply: Result<Record>)
      modifies this`audit
      ensures var out := S.GetRecord(cfg, old(Tables()), ctx, id, now);
              Tables() == Commit(old(Tables()), out.tx) && reply == out.reply
    {
      var found := LoadRecord(Tables(), ctx.tenantId, id);
      if found.None? { return Err(NotFound); }
      var allowed := Authorize(ctx, Read, ObjectResource(found.value.objectType), found, now);
      if !allowed { return Err(Forbidden); }
      var loaded := LoadType(cfg, ctx.tenantId, found.value.objectType);
      if loaded.None? { return Err(NotFound); }
      return Ok(ProjectForRead(cfg, ctx, found.value, loaded.value));
    }

    method GetRelations(ctx: AuthContext, id: string, now: int) returns (reply: Result<seq<S.Edge>>)
      modifies this`audit
      ensures var out := S.GetRelations(cfg, old(Tables()), ctx, id, now);
              Tables() == Commit(old(Tables()), out.tx) && reply == out.reply
    {
      var found := LoadRecord(Tables(), ctx.tenantId, id);
      if found.None? { return Err(NotFound); }
      var allowed := Authorize(ctx, Read, ObjectResource(found.value.objectType), found, now);
      if !allowed { return Err(Forbidden); }
      var edges := SeenFrom(RelationsOf(relations, ctx.tenantId, id), id);
      return Ok(edges);
    }

    /** The pass that turns relation rows into edges seen from the record's end. */
    method SeenFrom(rows: seq<Relation>, id: string) returns (edges: seq<S.Edge>)
      ensures edges == S.EdgesSeenFrom(rows, id)
    {
      edges := [];
      for i := 0 to |rows|
        invariant |edges| == i
        invariant forall k | 0 <= k < i :: edges[k] == S.EdgesSeenFrom(rows, id)[k]
      {
        if rows[i].fromRecord == id {
          edges := edges + [S.Edge(rows[i].id, rows[i].relationType, true, rows[i].toRecord, rows[i].createdAt)];
        } else {
          edges := edges + [S.Edge(rows[i].id, rows[i].relationType, false, rows[i].fromRecord, rows[i].createdAt)];
        }
      }
    }

    /** The projection pass over selected rows. */
    method ProjectRows(
      ctx: AuthContext, grants: seq<Grant>, otype: ObjectType, objectType: string, rows: seq<Record>)
      returns (shown: seq<Record>)
      ensures shown == ShownAll(cfg, ctx, grants, otype, objectType, rows)
    {
      shown := [];
      for i := 0 to |rows|
        invariant |shown| == i
        invariant forall k | 0 <= k < i :: shown[k] == Shown(cfg, ctx, grants, otype, objectType, rows[k])
      {
        shown := shown + [Shown(cfg, ctx, grants, otype, objectType, rows[i])];
      }
    }

    method ListRecords(ctx: AuthContext, objectType: string, filter: RecordFilter, now: int)
      returns (reply: Result<Listing>)
      modifies this`audit
      ensures var out := S.ListRecords(cfg, old(Tables()), ctx, objectType, filter, now);
              Tables() == Commit(old(Tables()), out.tx) && reply == out.reply
    {
      hide Select, ShownAll, Candidates, Sorted, EffectiveGrants, Authorized;
      var allowed := Authorize(ctx, Search, ObjectResource(objectType), None, now);
      if !allowed { return Err(Forbidden); }
      var loaded := LoadType(cfg, ctx.tenantId, objectType);
      if loaded.None? { return Err(NotFound); }
      var grants := LoadGrants(cfg.roles, ctx);
      var rows := RetainInStages(cfg, ctx, grants, objectType, filter,
                                 Candidates(Tables(), ctx.tenantId, objectType, filter.includeArchived));
      if filter.sort.Some? {
        rows := Sorted(ByField(filter.sort.value), rows);
        if filter.desc {
          rows := Reversed(rows);
        }
      }
      var total := |rows|;
      var page := Clamped(filter.page);
      if page.offset + page.limit > MAX_I64 { return Err(Overflow); }
      var start, end := MinInt(page.offset, total), MinInt(page.offset + page.limit, total);
      var items := ProjectRows(ctx, grants, loaded.value, objectType, rows[start..end]);
      return Ok(Listing(items, total, page.limit, page.offset));
    }

    method ScanRecords(
      ctx: AuthContext, objectType: string, filters: seq<FieldFilter>, includeArchived: bool, now: int)
      returns (reply: Result<seq<Record>>)
      modifies this`audit
      ensures var out := S.ScanRecords(cfg, old(Tables()), ctx, objectType, filters, includeArchived, now);
              Tables() == Commit(old(Tables()), out.tx) && reply == out.reply
    {
      var allowed := Authorize(ctx, Search, ObjectResource(objectType), None, now);
      if !allowed { return Err(Forbidden); }
      var loaded := LoadType(cfg, ctx.tenantId, objectType);
      if loaded.None? { return Err(NotFound); }
      var grants := LoadGrants(cfg.roles, ctx);
      var rows := RetainInStages(cfg, ctx, grants, objectType, ScanFilter(filters, includeArchived),
                                 Candidates(Tables(), ctx.tenantId, objectType, includeArchived));
      var shown := ProjectRows(ctx, grants, loaded.value, objectType, rows);
      return Ok(shown);
    }

    method RunReportDef(ctx: AuthContext, def: ReportDef, now: int) returns (reply: Result<ReportResult>)
      modifies this`audit
      ensures var out := S.RunReportDef(cfg, old(Tables()), ctx, def, now);
              Tables() == Commit(old(Tables()), out.tx) && reply == out.reply
    {
      var scan := ScanRecords(ctx, def.objectType, def.filters, false, now);
      if scan.Err? { return Err(scan.code); }
      var result := RunReport(scan.value, def, cfg.render);
      return Ok(result);
    }

    // ---- workflow, approvals, tasks -----------------------------------------------------------

    method AvailableTransitions(ctx: AuthContext, id: string, now: int) returns (reply: Result<seq<Transition>>)
      modifies this`audit
      ensures var out := S.AvailableTransitions(cfg, old(Tables()), ctx, id, now);
              Tables() == Commit(old(Tables()), out.tx) && reply == out.reply
    {
      var found := LoadRecord(Tables(), ctx.tenantId, id);
      if found.None? { return Err(NotFound); }
      var allowed := Authorize(ctx, Read, ObjectResource(found.value.objectType), found, now);
      if !allowed { return Err(Forbidden); }
      var loaded := LoadType(cfg, ctx.tenantId, found.value.objectType);
      if loaded.None? { return Err(NotFound); }
      if loaded.value.workflowKey.None? { return Ok([]); }
      var wf := LoadWorkflow(cfg, ctx.tenantId, loaded.value.workflowKey.value);
      if wf.None? { return Ok([]); }
      var current := found.value.workflowState;
      return Ok(AvailableFrom(wf.value.transitions, if current.Some? then current.value else wf.value.initialState));
    }

    method TransitionRecord(
      ctx: AuthContext, id: string, key: string, reason: Option<string>, approvalId: string, taskId: string,
      now: int) returns (reply: Result<S.TransitionResult>)
      modifies this
      ensures var out := S.TransitionRecord(cfg, old(Tables()), ctx, id, key, reason, approvalId, taskId, now);
              Tables() == Commit(old(Tables()), out.tx) && reply == out.reply
    {
      var found := LoadRecord(Tables(), ctx.tenantId, id);
      if found.None? { return Err(NotFound); }
      var record := found.value;
      var loaded := LoadType(cfg, ctx.tenantId, record.objectType);
      if loaded.None? { return Err(NotFound); }
      if loaded.value.workflowKey.None? { return Err(FailedPrecondition); }
      var wf := LoadWorkflow(cfg, ctx.tenantId, loaded.value.workflowKey.value);
      if wf.None? { return Err(FailedPrecondition); }
      var current := S.CurrentState(record, wf.value);
      var step := TransitionFrom(wf.value.transitions, current, key);
      if step.None? { return Err(FailedPrecondition); }
      var t := step.value;
      var guard := if t.guardPermission.Some? then t.guardPermission.value else ObjectResource(record.objectType);
      var allowed := Authorize(ctx, Transition_, guard, Some(record), now);
      if !allowed { return Err(Forbidden); }
      reply := ApplyTransition(ctx, record, t, current, reason, approvalId, taskId, now);
    }

    /** The statements of the transition's transaction: an approval and its task, or the move. */
    method ApplyTransition(
      ctx: AuthContext, record: Record, t: Transition, current: string, reason: Option<string>,
      approvalId: string, taskId: string, now: int) returns (reply: Result<S.TransitionResult>)
      modifies this
      ensures var out := S.TakeTransition(old(Tables()), ctx, record, t, current, reason, approvalId, taskId, now);
              Tables() == Commit(old(Tables()), out.tx) && reply == out.reply
    {
      if t.requiresApproval {
        if approvalId in approvals || taskId in tasks { return Err(Conflict); }
        approvals := approvals[approvalId := S.PendingApproval(ctx, record, t, current, approvalId, now)];
        tasks := tasks[taskId := S.ApprovalTask(ctx, record, t, taskId, approvalId, now)];
        InsertAudit(S.EventFrom(ctx, TransitionRequested, Some(record.objectType), Some(record.id),
                                Some(Obj(map["state" := Str(current)])),
                                Some(Obj(map["requested_state" := Str(t.to)])), now)
                    .(approvalId := Some(approvalId), reason := reason));
        return Ok(S.TransitionResult(record.id, current, t.to, Some(approvalId)));
      }
      records := records[record.id := record.(workflowState := Some(t.to), updatedAt := now)];
      InsertAudit(S.EventFrom(ctx, Transitioned, Some(record.objectType), Some(record.id),
                              Some(S.StateJson(Some(current))), Some(S.StateJson(Some(t.to))), now)
                  .(reason := reason));
      return Ok(S.TransitionResult(record.id, current, t.to, None));
    }

    /** One update statement over the tasks table, row by row: no task comes or goes, the tasks
        linked to the approval get the status and the time and keep the rest, and every other task
        stays as it is. */
    method CloseTasksForApproval(tenantId: string, approvalId: string, status: TaskStatus, now: int)
      modifies this`tasks
      ensures tasks.Keys == old(tasks).Keys
      ensures forall id | id in tasks && LinkedTo(old(tasks)[id], tenantId, approvalId) ::
                && tasks[id].status == status && tasks[id].updatedAt == now
                && tasks[id].(status := old(tasks)[id].status, updatedAt := old(tasks)[id].updatedAt) == old(tasks)[id]
      ensures forall id | id in tasks && !LinkedTo(old(tasks)[id], tenantId, approvalId) :: tasks[id] == old(tasks)[id]
    {
      var linked := set id | id in tasks && LinkedTo(tasks[id], tenantId, approvalId);
      var todo := linked;
      while todo != {}
        invariant todo <= linked && tasks.Keys == old(tasks).Keys
        invariant forall id | id in tasks ::
                    tasks[id] == if id in linked && id !in todo
                                 then old(tasks)[id].(status := status, updatedAt := now) else old(tasks)[id]
        decreases |todo|
      {
        var id :| id in todo;
        tasks := tasks[id := tasks[id].(status := status, updatedAt := now)];
        todo := todo - {id};
      }
    }

    /** The permission comes before the lookup. */
    method GetApproval(ctx: AuthContext, id: string, now: int) returns (reply: Result<Approval>)
      modifies this`audit
      ensures var out := S.GetApproval(cfg, old(Tables()), ctx, id, now);
              Tables() == Commit(old(Tables()), out.tx) && reply == out.reply
    {
      var allowed := Authorize(ctx, Read, S.APPROVAL_RESOURCE, None, now);
      if !allowed { return Err(Forbidden); }
      var found := LoadApproval(Tables(), ctx.tenantId, id);
      if found.None? { return Err(NotFound); }
      return Ok(found.value);
    }

    /** Closing row by row leaves the table the specification describes as a whole. */
    static lemma ClosedRowByRow(
      before: map<string, Task>, after: map<string, Task>, tenantId: string, approvalId: string, status: TaskStatus,
      now: int)
      requires after.Keys == before.Keys
      requires forall id | id in after && LinkedTo(before[id], tenantId, approvalId) ::
                 && after[id].status == status && after[id].updatedAt == now
                 && after[id].(status := before[id].status, updatedAt := before[id].updatedAt) == before[id]
      requires forall id | id in after && !LinkedTo(before[id], tenantId, approvalId) :: after[id] == before[id]
      ensures after == CloseTasks(before, tenantId, approvalId, status, now)
    {
    }

    method DecideApproval(ctx: AuthContext, id: string, approved: bool, reason: Option<string>, now: int)
      returns (reply: Result<Approval>)
      modifies this
      ensures var out := S.DecideApproval(cfg, old(Tables()), ctx, id, approved, reason, now);
              Tables() == Commit(old(Tables()), out.tx) && reply == out.reply
    {
      var found := LoadApproval(Tables(), ctx.tenantId, id);
      if found.None? { return Err(NotFound); }
      var approval := found.value;
      if !approval.status.Pending? { return Err(FailedPrecondition); }
      if cfg.separationOfDuties && approval.requestedBy == ctx.actorId && !Trusted(ctx) {
        AuditDenial(ctx, ActionName(Approve), S.APPROVAL_RESOURCE, Some(id), now);
        return Err(Forbidden);
      }
      var objectType := S.TypeOrBlank(approval);
      var target := S.ApprovalTarget(Tables(), ctx.tenantId, approval);
      var allowed := Authorize(ctx, Approve, ObjectResource(objectType), target, now);
      if !allowed { return Err(Forbidden); }
      reply := ApplyDecision(ctx, approval, target, approved, reason, now);
    }

    /** The statements of the deciding transaction, in order. */
    method ApplyDecision(
      ctx: AuthContext, pending: Approval, target: Option<Record>, approved: bool, reason: Option<string>, now: int)
      returns (reply: Result<Approval>)
      requires target == S.ApprovalTarget(Tables(), pending.tenantId, pending)
      modifies this
      ensures reply == Ok(S.Decided(ctx, pending, approved, reason, now))
      ensures Tables() == Commit(old(Tables()),
                                 Tx.DecideApproval(reply.value, S.MovedRecord(pending, target, approved, now),
                                                S.DecisionEvent(ctx, pending, target, approved, reason, now)))
    {
      hide LinkedTo;
      var objectType := S.TypeOrBlank(pending);
      if approved {
        if pending.relatedRecordId.Some? && pending.targetState.Some? {
          var before := if target.Some? then target.value.workflowState else None;
          if target.Some? {
            records := records[target.value.id :=
              target.value.(workflowState := pending.targetState, updatedAt := now)];
          }
          InsertAudit(S.EventFrom(ctx, Transitioned, Some(objectType), pending.relatedRecordId,
                                  Some(S.StateJson(before)), Some(S.StateJson(pending.targetState)), now)
                      .(approvalId := Some(pending.id), reason := reason));
        }
      } else {
        InsertAudit(S.EventFrom(ctx, ApprovalRejected, Some(objectType), pending.relatedRecordId, None, None, now)
                    .(approvalId := Some(pending.id), reason := reason));
      }
      var approval := pending.(status := if approved then Approved else Rejected, decidedBy := Some(ctx.actorId),
                               decisionReason := reason, decidedAt := Some(now));
      approvals := approvals[approval.id := approval];
      CloseTasksForApproval(approval.tenantId, approval.id, if approved then Done else Cancelled, now);
      ClosedRowByRow(old(tasks), tasks, approval.tenantId, approval.id, if approved then Done else Cancelled, now);
      reply := Ok(approval);
    }

    method GetTask(ctx: AuthContext, id: string, now: int) returns (reply: Result<Task>)
      modifies this`audit
      ensures var out := S.GetTask(cfg, old(Tables()), ctx, id, now);
              Tables() == Commit(old(Tables()), out.tx) && reply == out.reply
    {
      var found := LoadTask(Tables(), ctx.tenantId, id);
      if found.None? { return Err(NotFound); }
      if !S.TaskVisible(cfg, ctx, found.value) {
        AuditDenial(ctx, ActionName(Read), S.TASK_RESOURCE, Some(id), now);
        return Err(Forbidden);
      }
      return Ok(found.value);
    }

    /** Reads its own row back: the creator can always see it. */
    method CreateTask(ctx: AuthContext, new_: S.NewTask, id: string, now: int) returns (reply: Result<Task>)
      modifies this
      ensures var out := S.CreateTask(cfg, old(Tables()), ctx, new_, id, now);
              Tables() == Commit(old(Tables()), out.tx) && reply == out.reply
    {
      var allowed := Authorize(ctx, Create, S.TASK_RESOURCE, None, now);
      if !allowed { return Err(Forbidden); }
      if id in tasks { return Err(Conflict); }
      var task := Task(id, ctx.tenantId, ctx.orgId, new_.kind, new_.title, new_.assigneeId, Open,
                       new_.relatedObjectType, new_.relatedRecordId, new_.data, ctx.actorId, now, now);
      tasks := tasks[id := task];
      InsertAudit(S.EventFrom(ctx, TaskCreated, Some(S.TASK_RESOURCE), Some(id), None,
                              Some(Obj(map["kind" := Str(new_.kind), "title" := Str(new_.title)])), now));
      reply := GetTask(ctx, id, now);
    }

    /** Checks visibility, updates the row, and reads it back. */
    method CompleteTask(ctx: AuthContext, id: string, status: TaskStatus, now: int) returns (reply: Result<Task>)
      requires WellFormed(Tables())
      modifies this
      ensures var out := S.CompleteTask(cfg, old(Tables()), ctx, id, status, now);
              Tables() == Commit(old(Tables()), out.tx) && reply == out.reply
    {
      if !status.Done? && !status.Cancelled? { return Err(Validation); }
      var seen := GetTask(ctx, id, now);
      if seen.Err? { return seen; }
      var task := seen.value;
      if !task.status.Open? && !task.status.InProgress? { return Err(FailedPrecondition); }
      tasks := tasks[id := task.(status := status, updatedAt := now)];
      InsertAudit(S.EventFrom(ctx, TaskUpdated, Some(S.TASK_RESOURCE), Some(id),
                              Some(Obj(map["status" := Str(S.StatusText(task.status))])),
                              Some(Obj(map["status" := Str(S.StatusText(status))])), now));
      reply := GetTask(ctx, id, now);
    }
  }
}
