/** The audit log is complete: replaying a tenant's events rebuilds its records. */
module AuditReplay {
  import opened Values
  import opened Contracts
  import opened Store
  import opened Machine
  import opened Lawful
  import S = Services

  /** What the log can tell about a record. */
  datatype Image = Image(data: Fields, lifecycle: Lifecycle, state: Option<string>)

  function ImageOf(r: Record): Image {
    Image(r.data, r.lifecycle, r.workflowState)
  }

  function Images(db: Db, tenantId: string): map<string, Image> {
    map id | id in db.records && db.records[id].tenantId == tenantId :: ImageOf(db.records[id])
  }

  /** Reads `{"workflow_state": state}` back. */
  function StateIn(v: Option<Value>): Option<string> {
    if v.Some? && v.value.Obj? && S.WORKFLOW_STATE in v.value.fields && v.value.fields[S.WORKFLOW_STATE].Str?
    then Some(v.value.fields[S.WORKFLOW_STATE].s) else None
  }

  function DataIn(v: Option<Value>): Fields {
    if v.Some? && v.value.Obj? then v.value.fields else map[]
  }

  /** Applies one event to the images rebuilt so far; other tenants' events do not count. */
  function ReplayEvent(cfg: Config, tenantId: string, m: map<string, Image>, e: Event): map<string, Image> {
    if e.tenantId != tenantId || e.targetId.None? then m
    else
      var id := e.targetId.value;
      match e.verb
      case RecordCreated =>
        m[id := Image(DataIn(e.after), Active,
                      if e.targetType.Some? then InitialState(cfg, tenantId, e.targetType.value) else None)]
      case RecordUpdated => if id in m then m[id := m[id].(data := DataIn(e.after))] else m
      case RecordArchived => if id in m then m[id := m[id].(lifecycle := Archived)] else m
      case RecordRestored => if id in m then m[id := m[id].(lifecycle := Active)] else m
      case Transitioned => if id in m then m[id := m[id].(state := StateIn(e.after))] else m
      case _ => m
  }

  function Replay(cfg: Config, tenantId: string, log: seq<Event>): map<string, Image> {
    if log == [] then map[]
    else ReplayEvent(cfg, tenantId, Replay(cfg, tenantId, log[..|log| - 1]), log[|log| - 1])
  }

  /** The `before` an event should carry, given the images just before it. */
  predicate BeforeMatches(m: map<string, Image>, e: Event) {
    e.verb.RecordUpdated? || e.verb.Transitioned? ==>
      && e.targetId.Some? && e.targetId.value in m
      && e.before == Some(if e.verb.RecordUpdated? then Obj(m[e.targetId.value].data)
                          else S.StateJson(m[e.targetId.value].state))
  }

  predicate BeforesMatch(cfg: Config, tenantId: string, log: seq<Event>) {
    forall i | 0 <= i < |log| && log[i].tenantId == tenantId ::
      BeforeMatches(Replay(cfg, tenantId, log[..i]), log[i])
  }

  ghost predicate Faithful(cfg: Config, db: Db) {
    forall tenantId: string ::
      Replay(cfg, tenantId, db.audit) == Images(db, tenantId) && BeforesMatch(cfg, tenantId, db.audit)
  }

  lemma ReplayAppend(cfg: Config, tenantId: string, log: seq<Event>, e: Event)
    ensures Replay(cfg, tenantId, log + [e]) == ReplayEvent(cfg, tenantId, Replay(cfg, tenantId, log), e)
    ensures BeforesMatch(cfg, tenantId, log)
            && (e.tenantId == tenantId ==> BeforeMatches(Replay(cfg, tenantId, log), e))
            ==> BeforesMatch(cfg, tenantId, log + [e])
  {
    assert (log + [e])[..|log|] == log;
    forall i | 0 <= i < |log| ensures (log + [e])[..i] == log[..i] {
    }
  }

  /** A record keeps its workflow state in its own column from creation on. */
  ghost predicate StatesStored(cfg: Config, db: Db) {
    forall id | id in db.records :: StateOf(cfg, db.records[id]) == db.records[id].workflowState
  }

  lemma LawfulKeepsStates(cfg: Config, db: Db, ctx: AuthContext, tx: Tx)
    requires StatesStored(cfg, db) && LawfulTx(cfg, db, ctx, tx)
    ensures StatesStored(cfg, Commit(db, tx))
  {
  }

  /** The event the transaction logs, if any. */
  function Logged(tx: Tx): Option<Event> {
    match tx
    case NoWrite => None
    case DecideApproval(_, _, log) => log
    case _ => Some(tx.event)
  }

  lemma CommitAppends(db: Db, tx: Tx)
    ensures Commit(db, tx).audit == if Logged(tx).Some? then db.audit + [Logged(tx).value] else db.audit
  {
  }

  /** Writing one record row changes that record's image and no other. */
  lemma ImagesAfterWrite(db: Db, r: Record, tenantId: string)
    requires r.id in db.records ==> db.records[r.id].tenantId == r.tenantId
    ensures Images(db.(records := db.records[r.id := r]), tenantId)
            == if r.tenantId == tenantId then Images(db, tenantId)[r.id := ImageOf(r)] else Images(db, tenantId)
  {
  }

  lemma ImagesFollowRecords(db: Db, other: Db, tenantId: string)
    requires db.records == other.records
    ensures Images(db, tenantId) == Images(other, tenantId)
  {
  }

  /** The row a transaction writes to the records table, if any. */
  function WrittenRecord(tx: Tx): Option<Record> {
    match tx
    case InsertRecord(r, _) => Some(r)
    case ReplaceRecord(r, _) => Some(r)
    case DecideApproval(_, moved, _) => moved
    case _ => None
  }

  lemma ImagesAfterCommit(db: Db, tx: Tx, tenantId: string)
    requires var r := WrittenRecord(tx);
             r.Some? && r.value.id in db.records ==> db.records[r.value.id].tenantId == r.value.tenantId
    ensures var r, after := WrittenRecord(tx), Images(Commit(db, tx), tenantId);
            after == if r.Some? && r.value.tenantId == tenantId
                     then Images(db, tenantId)[r.value.id := ImageOf(r.value)] else Images(db, tenantId)
  {
    var r := WrittenRecord(tx);
    if r.Some? {
      ImagesAfterWrite(db, r.value, tenantId);
      ImagesFollowRecords(Commit(db, tx), db.(records := db.records[r.value.id := r.value]), tenantId);
    } else {
      ImagesFollowRecords(Commit(db, tx), db, tenantId);
    }
  }

  /** A written row keeps the tenant of the row it replaces. */
  lemma WrittenRowsKeepTenant(cfg: Config, db: Db, ctx: AuthContext, tx: Tx)
    requires WellFormed(db) && LawfulTx(cfg, db, ctx, tx)
    ensures var r := WrittenRecord(tx);
            r.Some? && r.value.id in db.records ==> db.records[r.value.id].tenantId == r.value.tenantId
  {
    hide DataLawful, TakableEdge;
  }

  lemma OthersTold(cfg: Config, db: Db, ctx: AuthContext, tx: Tx, tenantId: string)
    requires LawfulTx(cfg, db, ctx, tx) && Logged(tx).Some? && !tx.ReplaceRecord? && !tx.DecideApproval?
    ensures ReplayEvent(cfg, tenantId, Images(db, tenantId), Logged(tx).value)
            == (if tx.InsertRecord? && tx.record.tenantId == tenantId
                then Images(db, tenantId)[tx.record.id := ImageOf(tx.record)] else Images(db, tenantId))
    ensures BeforeMatches(Images(db, tenantId), Logged(tx).value)
  {
    hide DataLawful, TakableEdge, Images;
  }

  lemma EventTellsAll(cfg: Config, db: Db, ctx: AuthContext, tx: Tx, tenantId: string)
    requires WellFormed(db) && Anchored(db) && StatesStored(cfg, db)
    requires LawfulTx(cfg, db, ctx, tx) && Logged(tx).Some?
    ensures ReplayEvent(cfg, tenantId, Images(db, tenantId), Logged(tx).value) == Images(Commit(db, tx), tenantId)
    ensures Logged(tx).value.tenantId == tenantId ==> BeforeMatches(Images(db, tenantId), Logged(tx).value)
  {
    hide Anchored, ReplayEvent, BeforeMatches, Images, WellFormed, StatesStored, Commit;
    WrittenRowsKeepTenant(cfg, db, ctx, tx);
    ImagesAfterCommit(db, tx, tenantId);
    if tx.ReplaceRecord? {
      ReplacementTold(cfg, db, ctx, tx.record, tx.event, tenantId);
    } else if tx.DecideApproval? {
      DecisionTold(cfg, db, ctx, tx.approval, tx.moved, tx.log, tenantId);
    } else {
      OthersTold(cfg, db, ctx, tx, tenantId);
    }
  }

  lemma ReplacementTold(cfg: Config, db: Db, ctx: AuthContext, r: Record, e: Event, tenantId: string)
    requires WellFormed(db) && StatesStored(cfg, db) && LawfulReplace(cfg, db, ctx, r, e)
    ensures var m := Images(db, tenantId);
            && ReplayEvent(cfg, tenantId, m, e) == (if r.tenantId == tenantId then m[r.id := ImageOf(r)] else m)
            && (e.tenantId == tenantId ==> BeforeMatches(m, e))
  {
    hide Images, TakableEdge, DataLawful;
    ImageStored(db, tenantId, r.id);
    if e.verb.Transitioned? {
      assert StateIn(e.after) == r.workflowState;
    }
  }

  lemma ImageStored(db: Db, tenantId: string, id: string)
    requires id in db.records
    ensures var m := Images(db, tenantId);
            && (id in m <==> db.records[id].tenantId == tenantId) && (id in m ==> m[id] == ImageOf(db.records[id]))
  {
  }

  lemma DecisionTold(
    cfg: Config, db: Db, ctx: AuthContext, a: Approval, moved: Option<Record>, log: Option<Event>, tenantId: string)
    requires WellFormed(db) && Anchored(db) && LawfulDecision(cfg, db, ctx, a, moved, log) && log.Some?
    ensures var m := Images(db, tenantId);
            && ReplayEvent(cfg, tenantId, m, log.value)
               == (if moved.Some? && moved.value.tenantId == tenantId then m[moved.value.id := ImageOf(moved.value)]
                   else m)
            && (log.value.tenantId == tenantId ==> BeforeMatches(m, log.value))
  {
    hide Anchored, S.SelfDecision, ReplayEvent, BeforeMatches, ImageOf, Images;
    var o := db.approvals[a.id];
    assert o.targetState.Some? && o.relatedRecordId.Some?
      && LoadRecord(db, o.tenantId, o.relatedRecordId.value).Some? by {
      AnchorsHold(db, a.id);
    }
    if a.status.Approved? {
      var r := db.records[o.relatedRecordId.value];
      assert StateIn(log.value.after) == o.targetState;
      MoveTold(cfg, db, r, o.targetState, moved.value, log.value, tenantId);
    } else {
      RejectionTold(cfg, db, log.value, tenantId);
    }
  }

  lemma AnchorsHold(db: Db, id: string)
    requires Anchored(db) && id in db.approvals
    ensures var a := db.approvals[id];
            a.targetState.Some? && a.relatedRecordId.Some? && LoadRecord(db, a.tenantId, a.relatedRecordId.value).Some?
  {
  }

  lemma RejectionTold(cfg: Config, db: Db, e: Event, tenantId: string)
    requires e.verb.ApprovalRejected?
    ensures ReplayEvent(cfg, tenantId, Images(db, tenantId), e) == Images(db, tenantId)
    ensures BeforeMatches(Images(db, tenantId), e)
  {
  }

  /** The transition event of an approval tells the new state of its record and nothing else. */
  lemma MoveTold(cfg: Config, db: Db, r: Record, to: Option<string>, r': Record, e: Event, tenantId: string)
    requires r.id in db.records && db.records[r.id] == r && r' == r.(workflowState := to, updatedAt := r'.updatedAt)
    requires e.verb.Transitioned? && e.tenantId == r.tenantId && e.targetId == Some(r.id)
    requires StateIn(e.after) == to && to.Some? && e.before == Some(S.StateJson(r.workflowState))
    ensures ReplayEvent(cfg, tenantId, Images(db, tenantId), e)
            == if r.tenantId == tenantId then Images(db, tenantId)[r.id := ImageOf(r')] else Images(db, tenantId)
    ensures e.tenantId == tenantId ==> BeforeMatches(Images(db, tenantId), e)
  {
  }

  lemma NothingLoggedNothingChanged(cfg: Config, db: Db, ctx: AuthContext, tx: Tx, tenantId: string)
    requires LawfulTx(cfg, db, ctx, tx) && Logged(tx).None?
    ensures Images(Commit(db, tx), tenantId) == Images(db, tenantId)
  {
  }

  lemma LawfulKeepsFaith(cfg: Config, db: Db, ctx: AuthContext, tx: Tx)
    requires WellFormed(db) && Anchored(db) && StatesStored(cfg, db) && Faithful(cfg, db)
    requires LawfulTx(cfg, db, ctx, tx)
    ensures Faithful(cfg, Commit(db, tx))
  {
    CommitAppends(db, tx);
    forall tenantId: string
      ensures Replay(cfg, tenantId, Commit(db, tx).audit) == Images(Commit(db, tx), tenantId)
      ensures BeforesMatch(cfg, tenantId, Commit(db, tx).audit)
    {
      if Logged(tx).Some? {
        EventTellsAll(cfg, db, ctx, tx, tenantId);
        ReplayAppend(cfg, tenantId, db.audit, Logged(tx).value);
      } else {
        NothingLoggedNothingChanged(cfg, db, ctx, tx, tenantId);
      }
    }
  }

  lemma {:induction false} FaithfulInRuns(cfg: Config, calls: seq<Call>)
    requires ConfigValid(cfg)
    ensures Faithful(cfg, Run(cfg, calls)) && StatesStored(cfg, Run(cfg, calls))
  {
    if calls != [] {
      var init, c := calls[..|calls| - 1], calls[|calls| - 1];
      var db := Run(cfg, init);
      FaithfulInRuns(cfg, init);
      RunIsWellFormed(cfg, init);
      EveryCallIsLawful(cfg, db, c);
      LawfulKeepsFaith(cfg, db, c.ctx, Decide(cfg, db, c).tx);
      LawfulKeepsStates(cfg, db, c.ctx, Decide(cfg, db, c).tx);
    } else {
      forall tenantId: string ensures Images(EMPTY_DB, tenantId) == map[] {
      }
    }
  }

  /** After any run, replaying a tenant's audit events from nothing rebuilds the data, lifecycle
      and workflow state of exactly the tenant's records. */
  lemma AuditRebuildsRecords(cfg: Config, calls: seq<Call>, tenantId: string)
    requires ConfigValid(cfg)
    ensures Replay(cfg, tenantId, Run(cfg, calls).audit)
            == map id | id in Run(cfg, calls).records && Run(cfg, calls).records[id].tenantId == tenantId ::
                 ImageOf(Run(cfg, calls).records[id])
  {
    FaithfulInRuns(cfg, calls);
  }

  /** Every update and transition event is about a record the log already created, and carries
      as `before` exactly what replaying the log up to it yields. */
  lemma BeforesAreReplayed(cfg: Config, calls: seq<Call>, i: nat)
    requires ConfigValid(cfg) && i < |Run(cfg, calls).audit|
    ensures var log := Run(cfg, calls).audit;
            var e := log[i];
            var m := Replay(cfg, e.tenantId, log[..i]);
            && (e.verb.RecordUpdated? || e.verb.Transitioned? ==> e.targetId.Some? && e.targetId.value in m)
            && (e.verb.RecordUpdated? ==> e.before == Some(Obj(m[e.targetId.value].data)))
            && (e.verb.Transitioned? ==> e.before == Some(S.StateJson(m[e.targetId.value].state)))
  {
    FaithfulInRuns(cfg, calls);
    var log := Run(cfg, calls).audit;
    assert BeforesMatch(cfg, log[i].tenantId, log);
    assert BeforeMatches(Replay(cfg, log[i].tenantId, log[..i]), log[i]);
  }
}
