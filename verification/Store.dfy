/** The stored tables as one value, the reads a service makes, and the transactions it commits. */
module Store {
  import opened Values
  import opened Contracts
  import opened Sorting

  // ---- rows -------------------------------------------------------------------

  /** One entry of the records table's insertion order. */
  datatype RowKey = RowKey(tenantId: string, id: string)

  datatype Relation = Relation(
    id: string,
    tenantId: string,
    fromRecord: string,
    toRecord: string,
    relationType: string,
    createdBy: string,
    createdAt: int)

  datatype ApprovalStatus = Pending | Approved | Rejected

  datatype Approval = Approval(
    id: string,
    tenantId: string,
    orgId: string,
    status: ApprovalStatus,
    policy: Option<string>,
    requestedBy: string,
    decidedBy: Option<string>,
    decisionReason: Option<string>,
    relatedObjectType: Option<string>,
    relatedRecordId: Option<string>,
    transitionKey: Option<string>,
    targetState: Option<string>,
    data: Value,
    createdAt: int,
    decidedAt: Option<int>)

  datatype TaskStatus = Open | InProgress | Done | Cancelled | Other(text: string)

  datatype Task = Task(
    id: string,
    tenantId: string,
    orgId: string,
    kind: string,
    title: string,
    assigneeId: Option<string>,
    status: TaskStatus,
    relatedObjectType: Option<string>,
    relatedRecordId: Option<string>,
    data: Value,
    createdBy: string,
    createdAt: int,
    updatedAt: int)

  /** The audit verbs these services write. */
  datatype Verb =
    | RecordCreated | RecordUpdated | RecordArchived | RecordRestored | RelationCreated
    | TransitionRequested | Transitioned | ApprovalRejected
    | TaskCreated | TaskUpdated | PermissionDenied

  datatype Event = Event(
    tenantId: string,
    orgId: string,
    actorType: ActorType,
    actorId: string,
    verb: Verb,
    targetType: Option<string>,
    targetId: Option<string>,
    before: Option<Value>,
    after: Option<Value>,
    reason: Option<string>,
    approvalId: Option<string>,
    timestamp: int)

  datatype Db = Db(
    records: map<string, Record>,
    order: seq<RowKey>,
    relations: seq<Relation>,
    approvals: map<string, Approval>,
    tasks: map<string, Task>,
    audit: seq<Event>)

  const EMPTY_DB := Db(map[], [], [], map[], map[], [])

  // ---- reads --------------------------------------------------------------------

  function LoadRecord(db: Db, tenantId: string, id: string): Option<Record> {
    if id in db.records && db.records[id].tenantId == tenantId then Some(db.records[id]) else None
  }

  function LoadApproval(db: Db, tenantId: string, id: string): Option<Approval> {
    if id in db.approvals && db.approvals[id].tenantId == tenantId then Some(db.approvals[id]) else None
  }

  function LoadTask(db: Db, tenantId: string, id: string): Option<Task> {
    if id in db.tasks && db.tasks[id].tenantId == tenantId then Some(db.tasks[id]) else None
  }

  const MAX_SCAN: nat := 5000

  /** Does the row belong to the candidate set of a scan? */
  predicate IsCandidate(r: Record, tenantId: string, objectType: string, includeArchived: bool) {
    r.tenantId == tenantId && r.objectType == objectType && (includeArchived || r.lifecycle.Active?)
  }

  /** The matching rows in insertion order. */
  function MatchingRows(
    order: seq<RowKey>, records: map<string, Record>, tenantId: string, objectType: string,
    includeArchived: bool): (rows: seq<Record>)
    ensures forall r | r in rows ::
              IsCandidate(r, tenantId, objectType, includeArchived)
              && exists k | k in order :: k.id in records && records[k.id] == r
  {
    if order == [] then []
    else
      var last := order[|order| - 1];
      MatchingRows(order[..|order| - 1], records, tenantId, objectType, includeArchived)
      + (if last.tenantId == tenantId && last.id in records
            && IsCandidate(records[last.id], tenantId, objectType, includeArchived)
         then [records[last.id]] else [])
  }

  function Take<T>(s: seq<T>, n: nat): seq<T> {
    if |s| <= n then s else s[..n]
  }

  /** `WHERE tenant AND type [AND active] ORDER BY created_at DESC LIMIT 5000`. */
  function Candidates(db: Db, tenantId: string, objectType: string, includeArchived: bool): seq<Record> {
    Take(Sorted(NewestFirst, MatchingRows(db.order, db.records, tenantId, objectType, includeArchived)),
         MAX_SCAN)
  }

  predicate Touches(r: Relation, recordId: string) {
    r.fromRecord == recordId || r.toRecord == recordId
  }

  function RelationsOf(relations: seq<Relation>, tenantId: string, recordId: string): seq<Relation> {
    if relations == [] then []
    else
      var last := relations[|relations| - 1];
      RelationsOf(relations[..|relations| - 1], tenantId, recordId)
      + (if last.tenantId == tenantId && Touches(last, recordId) then [last] else [])
  }

  predicate SameEdge(a: Relation, b: Relation) {
    a.tenantId == b.tenantId && a.fromRecord == b.fromRecord && a.toRecord == b.toRecord
    && a.relationType == b.relationType
  }

  // ---- transactions ---------------------------------------------------------------

  /** What one service call writes. Each case is one transaction: the rows and the audit
      event land together or not at all. */
  datatype Tx =
    | NoWrite
    | Denial(event: Event)
    | InsertRecord(record: Record, event: Event)
    | ReplaceRecord(record: Record, event: Event)
    | InsertRelation(relation: Relation, event: Event)
    | RequestApproval(approval: Approval, task: Task, event: Event)
    | DecideApproval(approval: Approval, moved: Option<Record>, log: Option<Event>)
    | InsertTask(task: Task, event: Event)
    | ReplaceTask(task: Task, event: Event)

  const APPROVAL_ID := "approval_id"

  /** `json_extract(data_json, '$.approval_id') = ?`. */
  predicate LinkedTo(t: Task, tenantId: string, approvalId: string) {
    t.tenantId == tenantId && t.data.Obj? && APPROVAL_ID in t.data.fields
    && t.data.fields[APPROVAL_ID] == Str(approvalId)
  }

  function ClosingStatus(s: ApprovalStatus): TaskStatus {
    if s.Approved? then Done else Cancelled
  }

  function CloseTasks(
    tasks: map<string, Task>, tenantId: string, approvalId: string, status: TaskStatus, now: int)
    : (r: map<string, Task>)
    ensures r.Keys == tasks.Keys
  {
    map id | id in tasks ::
      if LinkedTo(tasks[id], tenantId, approvalId)
      then tasks[id].(status := status, updatedAt := now) else tasks[id]
  }

  function Commit(db: Db, tx: Tx): Db {
    match tx
    case NoWrite => db
    case Denial(e) => db.(audit := db.audit + [e])
    case InsertRecord(r, e) =>
      db.(records := db.records[r.id := r],
          order := db.order + [RowKey(r.tenantId, r.id)],
          audit := db.audit + [e])
    case ReplaceRecord(r, e) =>
      db.(records := db.records[r.id := r], audit := db.audit + [e])
    case InsertRelation(rel, e) =>
      db.(relations := if exists x | x in db.relations :: SameEdge(x, rel)
                       then db.relations else db.relations + [rel],
          audit := db.audit + [e])
    case RequestApproval(a, t, e) =>
      db.(approvals := db.approvals[a.id := a], tasks := db.tasks[t.id := t], audit := db.audit + [e])
    case DecideApproval(a, moved, log) =>
      db.(records := if moved.Some? then db.records[moved.value.id := moved.value] else db.records,
          approvals := db.approvals[a.id := a],
          tasks := CloseTasks(db.tasks, a.tenantId, a.id, ClosingStatus(a.status),
                              if a.decidedAt.Some? then a.decidedAt.value else 0),
          audit := if log.Some? then db.audit + [log.value] else db.audit)
    case InsertTask(t, e) => db.(tasks := db.tasks[t.id := t], audit := db.audit + [e])
    case ReplaceTask(t, e) => db.(tasks := db.tasks[t.id := t], audit := db.audit + [e])
  }

  /** What a service call decides: the transaction it commits and the reply it gives. */
  datatype Outcome<+T> = Outcome(tx: Tx, reply: Result<T>)

  // ---- well-formedness -------------------------------------------------------------

  /** Rows sit under their own ids, and the insertion order lists each record once. */
  ghost predicate WellFormed(db: Db) {
    && (forall id | id in db.records ::
          db.records[id].id == id && RowKey(db.records[id].tenantId, id) in db.order)
    && (forall k | k in db.order :: k.id in db.records && db.records[k.id].tenantId == k.tenantId)
    && (forall i, j | 0 <= i < j < |db.order| :: db.order[i].id != db.order[j].id)
    && (forall id | id in db.approvals :: db.approvals[id].id == id)
    && (forall id | id in db.tasks :: db.tasks[id].id == id)
  }
}
