/** How workflow states move over whole runs, read off the audit log. */
module WorkflowHistory {
  import opened Values
  import opened Contracts
  import opened Store
  import opened Machine
  import opened Lawful
  import AuditReplay
  import Rbac
  import S = Services

  /** The states the log says the record went through, oldest first. */
  function History(cfg: Config, tenantId: string, id: string, log: seq<Event>): seq<string> {
    if log == [] then []
    else
      var before, e := History(cfg, tenantId, id, log[..|log| - 1]), log[|log| - 1];
      if e.tenantId != tenantId || e.targetId != Some(id) then before
      else if e.verb.RecordCreated? && e.targetType.Some? then
        var initial := InitialState(cfg, tenantId, e.targetType.value);
        if initial.Some? then [initial.value] else []
      else if e.verb.Transitioned? && AuditReplay.StateIn(e.after).Some? then
        before + [AuditReplay.StateIn(e.after).value]
      else before
  }

  /** Some earlier state of the history has a declared gated edge to the state. */
  ghost predicate GatedFromEarlier(cfg: Config, tenantId: string, objectType: string, h: seq<string>, to: string) {
    exists j | 0 <= j < |h| :: TakableEdge(cfg, tenantId, objectType, true, h[j], to)
  }

  /** Step i is a declared ungated edge from the state before it, or leads to the target of a
      declared gated edge out of some state the record held earlier. */
  ghost predicate StepTakable(cfg: Config, tenantId: string, objectType: string, h: seq<string>, i: int)
    requires 0 < i < |h|
  {
    || TakableEdge(cfg, tenantId, objectType, false, h[i - 1], h[i])
    || GatedFromEarlier(cfg, tenantId, objectType, h[..i], h[i])
  }

  ghost predicate Explained(cfg: Config, tenantId: string, objectType: string, h: seq<string>) {
    forall i | 0 < i < |h| :: StepTakable(cfg, tenantId, objectType, h, i)
  }

  /** The history starts at the initial state, ends at the record's state, and is explained. */
  ghost predicate Sound(cfg: Config, r: Record, h: seq<string>) {
    && (h == [] <==> r.workflowState.None?)
    && (h == [] <==> InitialState(cfg, r.tenantId, r.objectType).None?)
    && (h != [] ==> h[0] == InitialState(cfg, r.tenantId, r.objectType).value
                    && h[|h| - 1] == r.workflowState.value)
    && Explained(cfg, r.tenantId, r.objectType, h)
  }

  function HistoryOf(cfg: Config, db: Db, r: Record): seq<string> {
    History(cfg, r.tenantId, r.id, db.audit)
  }

  ghost predicate RecordSound(cfg: Config, db: Db, id: string)
    requires id in db.records
  {
    Sound(cfg, db.records[id], HistoryOf(cfg, db, db.records[id]))
  }

  ghost predicate HistoriesSound(cfg: Config, db: Db) {
    forall id | id in db.records :: RecordSound(cfg, db, id)
  }

  /** The approval's target is gated from the state it was requested in, which its record has held. */
  ghost predicate ApprovalSound(cfg: Config, db: Db, a: Approval) {
    a.relatedRecordId.Some? && a.targetState.Some? && a.relatedRecordId.value in db.records
    && var r := db.records[a.relatedRecordId.value];
    && r.tenantId == a.tenantId
    && RequestedFrom(a).Some? && RequestedFrom(a).value in HistoryOf(cfg, db, r)
    && TakableEdge(cfg, r.tenantId, r.objectType, true, RequestedFrom(a).value, a.targetState.value)
  }

  ghost predicate ApprovalsSound(cfg: Config, db: Db) {
    forall id | id in db.approvals :: ApprovalSound(cfg, db, db.approvals[id])
  }

  /** What one logged event adds to a record's history. */
  function Added(tenantId: string, id: string, e: Event): seq<string> {
    if e.tenantId == tenantId && e.targetId == Some(id) && e.verb.Transitioned?
       && AuditReplay.StateIn(e.after).Some?
    then [AuditReplay.StateIn(e.after).value] else []
  }

  lemma HistoryGrows(cfg: Config, tenantId: string, id: string, log: seq<Event>, e: Event)
    requires !(e.verb.RecordCreated? && e.tenantId == tenantId && e.targetId == Some(id))
    ensures History(cfg, tenantId, id, log + [e]) == History(cfg, tenantId, id, log) + Added(tenantId, id, e)
  {
  }

  lemma HistoryStarts(cfg: Config, tenantId: string, id: string, log: seq<Event>, e: Event)
    requires e.verb.RecordCreated? && e.tenantId == tenantId && e.targetId == Some(id) && e.targetType.Some?
    ensures var initial := InitialState(cfg, tenantId, e.targetType.value);
            History(cfg, tenantId, id, log + [e]) == if initial.Some? then [initial.value] else []
  {
  }

  lemma ExplainedExtends(cfg: Config, tenantId: string, objectType: string, h: seq<string>, s: string)
    requires Explained(cfg, tenantId, objectType, h) && h != []
    requires TakableEdge(cfg, tenantId, objectType, false, h[|h| - 1], s)
             || GatedFromEarlier(cfg, tenantId, objectType, h, s)
    ensures Explained(cfg, tenantId, objectType, h + [s])
  {
    var h' := h + [s];
    forall i | 0 < i < |h'| ensures StepTakable(cfg, tenantId, objectType, h', i) {
      if i == |h| {
        assert h'[..i] == h;
      } else {
        assert h'[..i] == h[..i];
        assert StepTakable(cfg, tenantId, objectType, h, i);
      }
    }
  }

  /** What a commit does to one existing record's history. */
  lemma HistoryAfter(cfg: Config, db: Db, ctx: AuthContext, tx: Tx, id: string)
    requires WellFormed(db) && LawfulTx(cfg, db, ctx, tx) && id in db.records
    ensures var e, r := AuditReplay.Logged(tx), db.records[id];
            History(cfg, r.tenantId, id, Commit(db, tx).audit)
            == HistoryOf(cfg, db, r) + if e.Some? then Added(r.tenantId, id, e.value) else []
  {
    AuditReplay.CommitAppends(db, tx);
    var e, r := AuditReplay.Logged(tx), db.records[id];
    if e.Some? {
      HistoryGrows(cfg, r.tenantId, id, db.audit, e.value);
    }
  }

  lemma LawfulKeepsHistory(cfg: Config, db: Db, ctx: AuthContext, tx: Tx, id: string)
    requires WellFormed(db) && LawfulTx(cfg, db, ctx, tx) && id in db.records
    requires RecordSound(cfg, db, id)
    requires tx.DecideApproval? ==> ApprovalSound(cfg, db, db.approvals[tx.approval.id])
    ensures id in Commit(db, tx).records && RecordSound(cfg, Commit(db, tx), id)
  {
    hide Commit, WellFormed, RecordSound, LawfulReplace, LawfulDecision, LawfulInsert, LawfulRequest;
    RecordsKeepIdentity(cfg, db, ctx, tx, id);
    if tx.ReplaceRecord? {
      ReplaceKeepsHistory(cfg, db, ctx, tx.record, tx.event, id);
    } else if tx.DecideApproval? {
      DecisionKeepsHistory(cfg, db, ctx, tx.approval, tx.moved, tx.log, id);
    } else {
      OtherwiseKeepsHistory(cfg, db, ctx, tx, id);
    }
  }

  lemma OtherwiseKeepsHistory(cfg: Config, db: Db, ctx: AuthContext, tx: Tx, id: string)
    requires WellFormed(db) && LawfulTx(cfg, db, ctx, tx) && id in db.records && RecordSound(cfg, db, id)
    requires !tx.ReplaceRecord? && !tx.DecideApproval?
    ensures id in Commit(db, tx).records && RecordSound(cfg, Commit(db, tx), id)
  {
    hide Sound, LawfulInsert, LawfulRequest, Commit;
    HistoryAfter(cfg, db, ctx, tx, id);
    RecordsKeepIdentity(cfg, db, ctx, tx, id);
    OtherwiseUnmoved(cfg, db, ctx, tx, id);
    var h := HistoryOf(cfg, db, db.records[id]);
    assert h + [] == h;
  }

  lemma RecordsAdded(cfg: Config, db: Db, ctx: AuthContext, tx: Tx, id: string)
    requires WellFormed(db) && LawfulTx(cfg, db, ctx, tx) && id in Commit(db, tx).records
    ensures id in db.records || (tx.InsertRecord? && tx.record.id == id)
  {
  }

  lemma OtherwiseUnmoved(cfg: Config, db: Db, ctx: AuthContext, tx: Tx, id: string)
    requires LawfulTx(cfg, db, ctx, tx) && !tx.ReplaceRecord? && !tx.DecideApproval? && id in db.records
    ensures Commit(db, tx).records[id] == db.records[id]
    ensures var e := AuditReplay.Logged(tx); e.Some? ==> !e.value.verb.Transitioned?
  {
  }

  lemma InsertStartsHistory(cfg: Config, db: Db, ctx: AuthContext, tx: Tx, id: string)
    requires WellFormed(db) && LawfulTx(cfg, db, ctx, tx)
    requires id !in db.records && id in Commit(db, tx).records
    ensures RecordSound(cfg, Commit(db, tx), id)
  {
    HistoryStarts(cfg, ctx.tenantId, id, db.audit, tx.event);
  }

  lemma SoundSameState(cfg: Config, r: Record, r': Record, h: seq<string>)
    requires Sound(cfg, r, h) && r'.workflowState == r.workflowState
    requires r'.tenantId == r.tenantId && r'.objectType == r.objectType
    ensures Sound(cfg, r', h)
  {
  }

  lemma SoundStep(cfg: Config, r: Record, r': Record, h: seq<string>, to: string)
    requires Sound(cfg, r, h) && StateOf(cfg, r).Some? && r'.workflowState == Some(to)
    requires r'.tenantId == r.tenantId && r'.objectType == r.objectType
    requires TakableEdge(cfg, r.tenantId, r.objectType, false, StateOf(cfg, r).value, to)
    ensures Sound(cfg, r', h + [to])
  {
    ExplainedExtends(cfg, r.tenantId, r.objectType, h, to);
  }

  lemma ReplaceKeepsHistory(cfg: Config, db: Db, ctx: AuthContext, r': Record, e: Event, id: string)
    requires WellFormed(db) && id in db.records && RecordSound(cfg, db, id)
    requires LawfulReplace(cfg, db, ctx, r', e)
    ensures RecordSound(cfg, Commit(db, ReplaceRecord(r', e)), id)
  {
    hide Sound, TakableEdge, StateOf;
    HistoryAfter(cfg, db, ctx, ReplaceRecord(r', e), id);
    var r, h := db.records[id], HistoryOf(cfg, db, db.records[id]);
    if r'.id == id && e.verb.Transitioned? {
      assert AuditReplay.StateIn(e.after) == r'.workflowState;
      SoundStep(cfg, r, r', h, r'.workflowState.value);
    } else {
      assert h + [] == h;
      if r'.id == id {
        SoundSameState(cfg, r, r', h);
      }
    }
  }

  lemma DecisionKeepsHistory(
    cfg: Config, db: Db, ctx: AuthContext, a: Approval, moved: Option<Record>, log: Option<Event>, id: string)
    requires WellFormed(db) && id in db.records && RecordSound(cfg, db, id)
    requires LawfulDecision(cfg, db, ctx, a, moved, log) && ApprovalSound(cfg, db, db.approvals[a.id])
    ensures RecordSound(cfg, Commit(db, DecideApproval(a, moved, log)), id)
  {
    HistoryAfter(cfg, db, ctx, DecideApproval(a, moved, log), id);
    if a.status.Approved? && db.approvals[a.id].relatedRecordId == Some(id) {
      DecisionMoves(cfg, db, ctx, a, moved, log, id);
      SoundMove(cfg, db.records[id], HistoryOf(cfg, db, db.records[id]), db.approvals[a.id]);
    } else {
      DecisionSpares(cfg, db, ctx, a, moved, log, id);
    }
  }

  lemma SoundMove(cfg: Config, r: Record, h: seq<string>, a: Approval)
    requires Sound(cfg, r, h) && a.targetState.Some? && RequestedFrom(a).Some? && RequestedFrom(a).value in h
    requires TakableEdge(cfg, r.tenantId, r.objectType, true, RequestedFrom(a).value, a.targetState.value)
    ensures Sound(cfg, r.(workflowState := a.targetState), h + [a.targetState.value])
  {
    var j :| 0 <= j < |h| && h[j] == RequestedFrom(a).value;
    ExplainedExtends(cfg, r.tenantId, r.objectType, h, a.targetState.value);
  }

  lemma DecisionMoves(
    cfg: Config, db: Db, ctx: AuthContext, a: Approval, moved: Option<Record>, log: Option<Event>, id: string)
    requires WellFormed(db) && LawfulDecision(cfg, db, ctx, a, moved, log) && id in db.records
    requires var o := db.approvals[a.id];
             o.relatedRecordId == Some(id) && o.targetState.Some? && o.tenantId == db.records[id].tenantId
    requires a.status.Approved?
    ensures var r, r', to := db.records[id], Commit(db, DecideApproval(a, moved, log)).records[id],
                             db.approvals[a.id].targetState;
            && r' == r.(workflowState := to, updatedAt := r'.updatedAt)
            && log.Some? && Added(r.tenantId, id, log.value) == [to.value]
  {
  }

  lemma DecisionSpares(
    cfg: Config, db: Db, ctx: AuthContext, a: Approval, moved: Option<Record>, log: Option<Event>, id: string)
    requires WellFormed(db) && LawfulDecision(cfg, db, ctx, a, moved, log) && id in db.records
    requires a.status.Rejected? || db.approvals[a.id].relatedRecordId != Some(id)
    ensures Commit(db, DecideApproval(a, moved, log)).records[id] == db.records[id]
    ensures log.Some? ==> Added(db.records[id].tenantId, id, log.value) == []
  {
  }

  /** No transaction moves a record to another tenant or type. */
  lemma RecordsKeepIdentity(cfg: Config, db: Db, ctx: AuthContext, tx: Tx, id: string)
    requires WellFormed(db) && LawfulTx(cfg, db, ctx, tx) && id in db.records
    ensures id in Commit(db, tx).records
    ensures var r, r' := db.records[id], Commit(db, tx).records[id];
            r'.id == r.id && r'.tenantId == r.tenantId && r'.objectType == r.objectType
  {
    hide TakableEdge, DataLawful, S.SelfDecision, LawfulRequest;
  }

  lemma RequestIsGated(cfg: Config, db: Db, ctx: AuthContext, a: Approval, t: Task, e: Event)
    requires WellFormed(db) && HistoriesSound(cfg, db) && LawfulRequest(cfg, db, ctx, a, t, e)
    ensures ApprovalSound(cfg, db, a)
  {
  }

  lemma LawfulKeepsApprovals(cfg: Config, db: Db, ctx: AuthContext, tx: Tx, id: string)
    requires WellFormed(db) && HistoriesSound(cfg, db) && ApprovalsSound(cfg, db)
    requires LawfulTx(cfg, db, ctx, tx) && id in Commit(db, tx).approvals
    ensures ApprovalSound(cfg, Commit(db, tx), Commit(db, tx).approvals[id])
  {
    hide TakableEdge, WellFormed, Commit, LawfulRequest, HistoriesSound, History;
    var a := Commit(db, tx).approvals[id];
    ApprovalsKeepSubject(cfg, db, ctx, tx, id);
    if id !in db.approvals {
      RequestIsGated(cfg, db, ctx, a, tx.task, tx.event);
      ApprovalStaysSound(cfg, db, ctx, tx, a);
    } else {
      ApprovalStaysSound(cfg, db, ctx, tx, db.approvals[id]);
    }
  }

  /** A record keeps the states it has held. */
  lemma ApprovalStaysSound(cfg: Config, db: Db, ctx: AuthContext, tx: Tx, a: Approval)
    requires WellFormed(db) && LawfulTx(cfg, db, ctx, tx) && ApprovalSound(cfg, db, a)
    ensures ApprovalSound(cfg, Commit(db, tx), a)
  {
    hide TakableEdge, Commit, LawfulTx, History, Added;
    RecordsKeepIdentity(cfg, db, ctx, tx, a.relatedRecordId.value);
    HistoryAfter(cfg, db, ctx, tx, a.relatedRecordId.value);
  }

  lemma {:induction false} SoundInRuns(cfg: Config, calls: seq<Call>)
    requires ConfigValid(cfg)
    ensures HistoriesSound(cfg, Run(cfg, calls)) && ApprovalsSound(cfg, Run(cfg, calls))
  {
    if calls != [] {
      var init, c := calls[..|calls| - 1], calls[|calls| - 1];
      var db := Run(cfg, init);
      var tx := Decide(cfg, db, c).tx;
      SoundInRuns(cfg, init);
      RunIsWellFormed(cfg, init);
      EveryCallIsLawful(cfg, db, c);
      forall id | id in Commit(db, tx).records ensures RecordSound(cfg, Commit(db, tx), id) {
        RecordsAdded(cfg, db, c.ctx, tx, id);
        if id in db.records {
          LawfulKeepsHistory(cfg, db, c.ctx, tx, id);
        } else {
          InsertStartsHistory(cfg, db, c.ctx, tx, id);
        }
      }
      forall id | id in Commit(db, tx).approvals
        ensures ApprovalSound(cfg, Commit(db, tx), Commit(db, tx).approvals[id])
      {
        LawfulKeepsApprovals(cfg, db, c.ctx, tx, id);
      }
    }
  }

  lemma TakableStaysDeclared(cfg: Config, tenantId: string, objectType: string, gated: bool, from: string, to: string)
    requires ConfigValid(cfg) && TakableEdge(cfg, tenantId, objectType, gated, from, to)
    ensures var wf := WorkflowOf(cfg, tenantId, objectType);
            wf.Some? && from in wf.value.states && to in wf.value.states
  {
  }

  /** In every run: a record's logged history starts at its type's initial state and ends at the
      state it is in; each step is a declared ungated edge from the state before, or leads to the
      target of a declared gated edge whose source the record held earlier; and every state in
      it is declared by the workflow. */
  lemma WorkflowMovesAreDeclared(cfg: Config, calls: seq<Call>, id: string)
    requires ConfigValid(cfg) && id in Run(cfg, calls).records
    ensures var db := Run(cfg, calls);
            var r := db.records[id];
            var h, wf := HistoryOf(cfg, db, r), WorkflowOf(cfg, r.tenantId, r.objectType);
            && (wf.None? <==> h == []) && (wf.None? <==> r.workflowState.None?)
            && (wf.Some? ==>
                  && h[0] == wf.value.initialState && Some(h[|h| - 1]) == r.workflowState
                  && (forall i | 0 < i < |h| :: StepTakable(cfg, r.tenantId, r.objectType, h, i))
                  && (forall i | 0 <= i < |h| :: h[i] in wf.value.states))
  {
    SoundInRuns(cfg, calls);
    var db := Run(cfg, calls);
    var r := db.records[id];
    var h, wf := HistoryOf(cfg, db, r), WorkflowOf(cfg, r.tenantId, r.objectType);
    assert RecordSound(cfg, db, id);
    forall i | 0 < i < |h| ensures h[i] in wf.value.states {
      assert StepTakable(cfg, r.tenantId, r.objectType, h, i);
      if TakableEdge(cfg, r.tenantId, r.objectType, false, h[i - 1], h[i]) {
        TakableStaysDeclared(cfg, r.tenantId, r.objectType, false, h[i - 1], h[i]);
      } else {
        var j :| 0 <= j < i && TakableEdge(cfg, r.tenantId, r.objectType, true, h[..i][j], h[i]);
        TakableStaysDeclared(cfg, r.tenantId, r.objectType, true, h[j], h[i]);
      }
    }
  }

  /** Approving in any reachable state moves the record straight to the requested target and logs
      the state it left; when the record is still where the request found it, that move is a
      declared gated edge. Which workflows let the record have moved off every edge to the target
      is settled in ApprovalDrift. */
  lemma UnmovedApprovalsFollowTheirEdge(
    cfg: Config, calls: seq<Call>, ctx: AuthContext, id: string, reason: Option<string>, now: int)
    requires ConfigValid(cfg)
    requires S.DecideApproval(cfg, Run(cfg, calls), ctx, id, true, reason, now).reply.Ok?
    ensures var db, tx := Run(cfg, calls), S.DecideApproval(cfg, Run(cfg, calls), ctx, id, true, reason, now).tx;
            var a := db.approvals[id];
            && a.relatedRecordId.Some? && a.relatedRecordId.value in db.records
            && tx.DecideApproval? && tx.moved.Some? && tx.log.Some?
            && var r, r' := db.records[a.relatedRecordId.value], tx.moved.value;
            && r' == r.(workflowState := a.targetState, updatedAt := now)
            && tx.log.value.before == Some(S.StateJson(r.workflowState))
            && tx.log.value.after == Some(S.StateJson(r'.workflowState))
            && (r.workflowState == RequestedFrom(a) ==>
                  && r.workflowState.Some? && r'.workflowState.Some?
                  && TakableEdge(cfg, r.tenantId, r.objectType, true, r.workflowState.value, r'.workflowState.value))
  {
    hide HistoriesSound, WellFormed, TakableEdge, Rbac.Authorized;
    SoundInRuns(cfg, calls);
    RunIsWellFormed(cfg, calls);
    var db := Run(cfg, calls);
    assert ApprovalSound(cfg, db, db.approvals[id]);
  }
}
