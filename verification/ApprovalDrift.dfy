/** Which histories a workflow allows, and when approvals leave its graph: a decision moves the
    record to the requested target without looking at where the record is by then. */
module ApprovalDrift {
  import opened Values
  import opened Contracts
  import opened Rbac
  import opened Store
  import opened Machine
  import opened Lawful
  import opened WorkflowHistory
  import AuditReplay
  import S = Services

  // ---- the workflow as a graph ------------------------------------------------------------------

  /** Step k of a state sequence takes an ungated edge from the state before it, or leads to the
      target of a gated edge out of some earlier state. */
  ghost predicate WalkStep(wf: Workflow, w: seq<string>, k: int)
    requires 0 < k < |w|
  {
    Takable(wf, false, w[k - 1], w[k]) || exists j | 0 <= j < k :: Takable(wf, true, w[j], w[k])
  }

  ghost predicate Walk(wf: Workflow, w: seq<string>) {
    w != [] && w[0] == wf.initialState && forall k | 0 < k < |w| :: WalkStep(wf, w, k)
  }

  /** An edge that some request can take, gated or not. */
  ghost predicate Edge(wf: Workflow, from: string, to: string) {
    Takable(wf, false, from, to) || Takable(wf, true, from, to)
  }

  ghost predicate EdgeStep(wf: Workflow, p: seq<string>, k: int)
    requires 0 < k < |p|
  {
    Edge(wf, p[k - 1], p[k])
  }

  ghost predicate Path(wf: Workflow, p: seq<string>) {
    p != [] && forall k | 0 < k < |p| :: EdgeStep(wf, p, k)
  }

  ghost predicate Reaches(wf: Workflow, a: string, b: string) {
    exists p :: Path(wf, p) && p[0] == a && p[|p| - 1] == b
  }

  /** Any declared transition between the states, whether or not a request can take it. */
  predicate Declared(wf: Workflow, from: string, to: string) {
    exists t | t in wf.transitions :: t.from == from && t.to == to
  }

  ghost predicate DeclaredStep(wf: Workflow, p: seq<string>, k: int)
    requires 0 < k < |p|
  {
    Declared(wf, p[k - 1], p[k])
  }

  // ---- records and requests in the store -----------------------------------------------------------

  /** The record is in the last state of the history w, which the log bears out. */
  ghost predicate At(cfg: Config, db: Db, tenantId: string, typeKey: string, id: string, w: seq<string>) {
    && w != [] && id in db.records
    && var r := db.records[id];
    && r.id == id && r.tenantId == tenantId && r.objectType == typeKey
    && r.workflowState == Some(w[|w| - 1]) && HistoryOf(cfg, db, r) == w
  }

  /** A pending approval, under the id, to move the record to the state. */
  predicate Requested(db: Db, tenantId: string, id: string, approvalId: string, to: string) {
    approvalId in db.approvals
    && var a := db.approvals[approvalId];
    && a.id == approvalId && a.tenantId == tenantId && a.status.Pending?
    && a.relatedRecordId == Some(id) && a.targetState == Some(to)
  }

  /** Edits by a caller who may write every field, which make up a valid new record. */
  predicate Fills(cfg: Config, otype: ObjectType, data: seq<(string, Value)>) {
    var edited := S.ApplyEdits(otype, [ADMIN_GRANT], S.Defaults(otype.fields), data, false);
    edited.Applied? && S.DataFits(otype, edited.data, cfg.isTimestamp)
  }

  /** Some record of the type can be made at all. */
  ghost predicate Creatable(cfg: Config, tenantId: string, typeKey: string) {
    var otype := LoadType(cfg, tenantId, typeKey);
    otype.Some? && exists data :: Fills(cfg, otype.value, data)
  }

  /** Some run, by whatever callers, takes a record of the type through exactly these states. */
  ghost predicate Attainable(cfg: Config, tenantId: string, typeKey: string, w: seq<string>) {
    exists calls, id :: FreshRun(cfg, calls) && At(cfg, Run(cfg, calls), tenantId, typeKey, id, w)
  }

  // ---- every history is a walk ------------------------------------------------------------------------

  /** Whoever may write some fields, a caller who may write all could make the same edits. */
  lemma {:induction false} EditsByAdmin(
    otype: ObjectType, grants: seq<Grant>, start: Fields, edits: seq<(string, Value)>, clearing: bool)
    requires S.ApplyEdits(otype, grants, start, edits, clearing).Applied?
    ensures S.ApplyEdits(otype, [ADMIN_GRANT], start, edits, clearing)
            == S.ApplyEdits(otype, grants, start, edits, clearing)
  {
    if edits != [] {
      EditsByAdmin(otype, grants, start, edits[..|edits| - 1], clearing);
      AdminWrites(otype, edits[|edits| - 1].0);
    }
  }

  lemma AdminWrites(otype: ObjectType, key: string)
    ensures FieldPermitted([ADMIN_GRANT], otype, key)
  {
    assert ADMIN_GRANT in [ADMIN_GRANT] && ADMIN_GRANT.fields == Some(DenyFields([]));
  }

  lemma InsertsAreCreations(cfg: Config, db: Db, c: Call)
    requires Decide(cfg, db, c).tx.InsertRecord?
    ensures c.op.CreateOp?
  {
    match c.op {
      case TransitionOp(_, _, _, _, _) =>
      case DecideOp(_, _, _) =>
      case _ =>
    }
  }

  lemma CreationFills(cfg: Config, db: Db, ctx: AuthContext, new_: S.NewRecord, id: string, now: int)
    requires S.CreateRecord(cfg, db, ctx, new_, id, now).tx.InsertRecord?
    ensures var r := S.CreateRecord(cfg, db, ctx, new_, id, now).tx.record;
            Creatable(cfg, r.tenantId, r.objectType)
  {
    var otype := LoadType(cfg, ctx.tenantId, new_.objectType).value;
    var grants := GrantsFor(cfg, ctx, Create, ObjectResource(new_.objectType), None);
    EditsByAdmin(otype, grants, S.Defaults(otype.fields), new_.data, false);
    assert Fills(cfg, otype, new_.data);
  }

  lemma {:induction false} RecordsAreCreatable(cfg: Config, calls: seq<Call>, id: string)
    requires ConfigValid(cfg) && id in Run(cfg, calls).records
    ensures var r := Run(cfg, calls).records[id]; Creatable(cfg, r.tenantId, r.objectType)
  {
    hide Decide, Commit, WellFormed, Anchored, LawfulTx, Creatable;
    var init, c := calls[..|calls| - 1], calls[|calls| - 1];
    var db := Run(cfg, init);
    var tx := Decide(cfg, db, c).tx;
    RunIsWellFormed(cfg, init);
    EveryCallIsLawful(cfg, db, c);
    RecordsAdded(cfg, db, c.ctx, tx, id);
    if id in db.records {
      RecordsKeepIdentity(cfg, db, c.ctx, tx, id);
      RecordsAreCreatable(cfg, init, id);
    } else {
      InsertsAreCreations(cfg, db, c);
      InsertedIs(cfg, db, c, tx, id);
      CreationFills(cfg, db, c.ctx, c.op.new_, c.op.id, c.now);
    }
  }

  lemma InsertedIs(cfg: Config, db: Db, c: Call, tx: Tx, id: string)
    requires c.op.CreateOp? && tx == Decide(cfg, db, c).tx && tx.InsertRecord? && tx.record.id == id
    ensures Commit(db, tx).records[id] == tx.record
    ensures S.CreateRecord(cfg, db, c.ctx, c.op.new_, c.op.id, c.now).tx == tx
  {
    hide S.CreateRecord;
  }

  lemma SoundIsWalk(cfg: Config, r: Record, wf: Workflow, h: seq<string>)
    requires Sound(cfg, r, h) && WorkflowOf(cfg, r.tenantId, r.objectType) == Some(wf)
    ensures Walk(wf, h)
  {
    forall k | 0 < k < |h| ensures WalkStep(wf, h, k) {
      assert StepTakable(cfg, r.tenantId, r.objectType, h, k);
      if !Takable(wf, false, h[k - 1], h[k]) {
        var j :| 0 <= j < |h[..k]| && TakableEdge(cfg, r.tenantId, r.objectType, true, h[..k][j], h[k]);
        assert h[..k][j] == h[j];
      }
    }
  }

  lemma HistoriesAreWalks(
    cfg: Config, calls: seq<Call>, tenantId: string, typeKey: string, wf: Workflow, id: string, w: seq<string>)
    requires ConfigValid(cfg) && WorkflowOf(cfg, tenantId, typeKey) == Some(wf)
    requires At(cfg, Run(cfg, calls), tenantId, typeKey, id, w)
    ensures Walk(wf, w) && Creatable(cfg, tenantId, typeKey)
  {
    hide Sound, Walk, Creatable;
    SoundInRuns(cfg, calls);
    assert RecordSound(cfg, Run(cfg, calls), id);
    SoundIsWalk(cfg, Run(cfg, calls).records[id], wf, w);
    RecordsAreCreatable(cfg, calls, id);
  }

  // ---- every walk is a history --------------------------------------------------------------------------

  /** An actor that passes every check of the tenant. */
  function Operator(tenantId: string): AuthContext {
    AuthContext(System, "system", tenantId, "", None, [], true)
  }

  lemma {:induction false} FreshId(used: set<string>) returns (id: string)
    ensures forall u | u in used :: |u| < |id|
    ensures id !in used
    decreases |used|
  {
    if used == {} {
      id := "x";
    } else {
      var u :| u in used;
      var longer := FreshId(used - {u});
      id := longer + u + "x";
      forall v | v in used ensures |v| < |id| {
        assert v == u || v in used - {u};
      }
    }
  }

  lemma CreateStep(cfg: Config, tenantId: string, typeKey: string, wf: Workflow, data: seq<(string, Value)>, id: string)
    requires WorkflowOf(cfg, tenantId, typeKey) == Some(wf) && LoadType(cfg, tenantId, typeKey).Some?
    requires Fills(cfg, LoadType(cfg, tenantId, typeKey).value, data)
    ensures var c := Call(Operator(tenantId), 0, CreateOp(S.NewRecord(typeKey, data, None), id));
            At(cfg, Step(cfg, EMPTY_DB, c), tenantId, typeKey, id, [wf.initialState])
  {
    var c := Call(Operator(tenantId), 0, CreateOp(S.NewRecord(typeKey, data, None), id));
    var tx := Decide(cfg, EMPTY_DB, c).tx;
    HistoryStarts(cfg, tenantId, id, [], tx.event);
    assert [] + [tx.event] == [tx.event];
  }

  function TransitionCall(tenantId: string, id: string, key: string, approvalId: string, taskId: string): Call {
    Call(Operator(tenantId), 0, TransitionOp(id, key, None, approvalId, taskId))
  }

  /** What asking for a transition from the record's state commits. */
  lemma TransitionDecided(
    cfg: Config, db: Db, tenantId: string, typeKey: string, wf: Workflow, t: Transition, id: string, w: seq<string>,
    approvalId: string, taskId: string)
    requires WorkflowOf(cfg, tenantId, typeKey) == Some(wf) && Offered(wf, t)
    requires At(cfg, db, tenantId, typeKey, id, w) && t.from == w[|w| - 1]
    ensures Decide(cfg, db, TransitionCall(tenantId, id, t.key, approvalId, taskId)).tx
            == S.TakeTransition(db, Operator(tenantId), db.records[id], t, t.from, None, approvalId, taskId, 0).tx
  {
    hide History;
  }

  lemma MoveStep(
    cfg: Config, db: Db, tenantId: string, typeKey: string, wf: Workflow, t: Transition, id: string, w: seq<string>,
    approvalId: string, taskId: string)
    requires WorkflowOf(cfg, tenantId, typeKey) == Some(wf) && Offered(wf, t) && !t.requiresApproval
    requires At(cfg, db, tenantId, typeKey, id, w) && t.from == w[|w| - 1]
    ensures var db' := Step(cfg, db, TransitionCall(tenantId, id, t.key, approvalId, taskId));
            At(cfg, db', tenantId, typeKey, id, w + [t.to]) && db'.approvals == db.approvals
  {
    hide Decide, History;
    TransitionDecided(cfg, db, tenantId, typeKey, wf, t, id, w, approvalId, taskId);
    var e := S.TakeTransition(db, Operator(tenantId), db.records[id], t, t.from, None, approvalId, taskId, 0).tx.event;
    assert AuditReplay.StateIn(e.after) == Some(t.to);
    HistoryGrows(cfg, tenantId, id, db.audit, e);
  }

  lemma RequestStep(
    cfg: Config, db: Db, tenantId: string, typeKey: string, wf: Workflow, t: Transition, id: string, w: seq<string>,
    approvalId: string, taskId: string)
    requires WorkflowOf(cfg, tenantId, typeKey) == Some(wf) && Offered(wf, t) && t.requiresApproval
    requires At(cfg, db, tenantId, typeKey, id, w) && t.from == w[|w| - 1]
    requires approvalId !in db.approvals && taskId !in db.tasks
    ensures var db' := Step(cfg, db, TransitionCall(tenantId, id, t.key, approvalId, taskId));
            && At(cfg, db', tenantId, typeKey, id, w) && Requested(db', tenantId, id, approvalId, t.to)
            && forall a, to | Requested(db, tenantId, id, a, to) :: Requested(db', tenantId, id, a, to)
  {
    hide Decide, History;
    TransitionDecided(cfg, db, tenantId, typeKey, wf, t, id, w, approvalId, taskId);
    var e := S.TakeTransition(db, Operator(tenantId), db.records[id], t, t.from, None, approvalId, taskId, 0).tx.event;
    HistoryGrows(cfg, tenantId, id, db.audit, e);
    assert w + [] == w;
  }

  lemma ApproveStep(
    cfg: Config, db: Db, tenantId: string, typeKey: string, id: string, w: seq<string>, approvalId: string, to: string)
    requires At(cfg, db, tenantId, typeKey, id, w) && Requested(db, tenantId, id, approvalId, to)
    ensures var db' := Step(cfg, db, Call(Operator(tenantId), 0, DecideOp(approvalId, true, None)));
            && At(cfg, db', tenantId, typeKey, id, w + [to])
            && forall a, to' | a != approvalId && Requested(db, tenantId, id, a, to') ::
                 Requested(db', tenantId, id, a, to')
  {
    hide History;
    var e := S.DecisionEvent(Operator(tenantId), db.approvals[approvalId], Some(db.records[id]), true, None, 0).value;
    assert AuditReplay.StateIn(e.after) == Some(to);
    HistoryGrows(cfg, tenantId, id, db.audit, e);
  }

  /** A request still wanted: the gated edge to ask for while in state `at` of the walk. */
  datatype Demand = Demand(at: nat, edge: Transition)

  ghost predicate Met(wf: Workflow, w: seq<string>, d: Demand) {
    d.at < |w| && Offered(wf, d.edge) && d.edge.requiresApproval && d.edge.from == w[d.at]
  }

  /** The run has taken the record along the walk and holds one pending request per demand. */
  ghost predicate Stocked(
    cfg: Config, tenantId: string, typeKey: string, w: seq<string>, demands: seq<Demand>, calls: seq<Call>, id: string,
    ids: seq<string>)
  {
    && FreshRun(cfg, calls) && At(cfg, Run(cfg, calls), tenantId, typeKey, id, w)
    && |ids| == |demands| && (forall i, j | 0 <= i < j < |ids| :: ids[i] != ids[j])
    && forall i | 0 <= i < |ids| :: Requested(Run(cfg, calls), tenantId, id, ids[i], demands[i].edge.to)
  }

  lemma RunOne(cfg: Config, calls: seq<Call>, c: Call)
    ensures Run(cfg, calls + [c]) == Step(cfg, Run(cfg, calls), c)
    ensures FreshRun(cfg, calls + [c]) <==> FreshRun(cfg, calls) && FreshIds(Run(cfg, calls), c.op)
  {
    hide Step, FreshIds;
    assert (calls + [c])[..|calls|] == calls;
  }

  lemma Begin(cfg: Config, tenantId: string, typeKey: string, wf: Workflow) returns (calls: seq<Call>, id: string)
    requires WorkflowOf(cfg, tenantId, typeKey) == Some(wf) && Creatable(cfg, tenantId, typeKey)
    ensures Stocked(cfg, tenantId, typeKey, [wf.initialState], [], calls, id, [])
  {
    hide Step, At, Fills;
    var data :| Fills(cfg, LoadType(cfg, tenantId, typeKey).value, data);
    id := "r";
    var c := Call(Operator(tenantId), 0, CreateOp(S.NewRecord(typeKey, data, None), id));
    CreateStep(cfg, tenantId, typeKey, wf, data, id);
    RunOne(cfg, [], c);
    calls := [] + [c];
  }

  /** Asks for the gated edge out of the state the walk is in, for the demand in place `p`. */
  lemma File(
    cfg: Config, tenantId: string, typeKey: string, wf: Workflow, w: seq<string>, demands: seq<Demand>, p: nat,
    before: seq<Call>, id: string, others: seq<string>) returns (calls: seq<Call>, ids: seq<string>)
    requires WorkflowOf(cfg, tenantId, typeKey) == Some(wf) && p < |demands|
    requires Met(wf, w, demands[p]) && demands[p].at == |w| - 1
    requires Stocked(cfg, tenantId, typeKey, w, demands[..p] + demands[p + 1..], before, id, others)
    ensures Stocked(cfg, tenantId, typeKey, w, demands, calls, id, ids)
  {
    hide Step, At, Decide, Commit;
    var db, t := Run(cfg, before), demands[p].edge;
    var approvalId := FreshId(db.approvals.Keys);
    var taskId := FreshId(db.tasks.Keys);
    var c := TransitionCall(tenantId, id, t.key, approvalId, taskId);
    RequestStep(cfg, db, tenantId, typeKey, wf, t, id, w, approvalId, taskId);
    RunOne(cfg, before, c);
    calls, ids := before + [c], others[..p] + [approvalId] + others[p..];
    var rest := demands[..p] + demands[p + 1..];
    forall i | 0 <= i < |ids| ensures Requested(Run(cfg, calls), tenantId, id, ids[i], demands[i].edge.to) {
      if i != p {
        var k := if i < p then i else i - 1;
        assert ids[i] == others[k] && demands[i] == rest[k];
        assert Requested(db, tenantId, id, others[k], rest[k].edge.to);
      }
    }
    assert forall i | 0 <= i < |others| :: Requested(db, tenantId, id, others[i], rest[i].edge.to);
  }

  /** Takes the ungated edge to the walk's next state. */
  lemma Advance(
    cfg: Config, tenantId: string, typeKey: string, wf: Workflow, w: seq<string>, to: string, demands: seq<Demand>,
    before: seq<Call>, id: string, ids: seq<string>) returns (calls: seq<Call>)
    requires WorkflowOf(cfg, tenantId, typeKey) == Some(wf) && w != [] && Takable(wf, false, w[|w| - 1], to)
    requires Stocked(cfg, tenantId, typeKey, w, demands, before, id, ids)
    ensures Stocked(cfg, tenantId, typeKey, w + [to], demands, calls, id, ids)
  {
    hide Step, At, Decide, Commit;
    var t :| t in wf.transitions && Offered(wf, t) && !t.requiresApproval && t.from == w[|w| - 1] && t.to == to;
    var db := Run(cfg, before);
    var approvalId := FreshId(db.approvals.Keys);
    var taskId := FreshId(db.tasks.Keys);
    var c := TransitionCall(tenantId, id, t.key, approvalId, taskId);
    MoveStep(cfg, db, tenantId, typeKey, wf, t, id, w, approvalId, taskId);
    RunOne(cfg, before, c);
    calls := before + [c];
  }

  /** Approves the last request in stock, wherever the record is. */
  lemma Redeem(
    cfg: Config, tenantId: string, typeKey: string, w: seq<string>, demands: seq<Demand>, last: Demand,
    before: seq<Call>, id: string, held: seq<string>) returns (calls: seq<Call>, ids: seq<string>)
    requires Stocked(cfg, tenantId, typeKey, w, demands + [last], before, id, held)
    ensures Stocked(cfg, tenantId, typeKey, w + [last.edge.to], demands, calls, id, ids)
  {
    hide Step, At, Decide, Commit;
    var db, n := Run(cfg, before), |demands|;
    var c := Call(Operator(tenantId), 0, DecideOp(held[n], true, None));
    assert Requested(db, tenantId, id, held[n], (demands + [last])[n].edge.to);
    ApproveStep(cfg, db, tenantId, typeKey, id, w, held[n], last.edge.to);
    RunOne(cfg, before, c);
    calls, ids := before + [c], held[..n];
    forall i | 0 <= i < n ensures Requested(Run(cfg, calls), tenantId, id, ids[i], demands[i].edge.to) {
      assert Requested(db, tenantId, id, held[i], (demands + [last])[i].edge.to);
    }
  }

  /** A run that follows the walk and ends with the demanded requests pending. Gated edges are
      asked for while their source is visited, and approved when the walk gets to their target. */
  lemma {:induction false} Follow(
    cfg: Config, tenantId: string, typeKey: string, wf: Workflow, w: seq<string>, demands: seq<Demand>)
    returns (calls: seq<Call>, id: string, ids: seq<string>)
    requires WorkflowOf(cfg, tenantId, typeKey) == Some(wf) && Creatable(cfg, tenantId, typeKey)
    requires Walk(wf, w) && forall d | d in demands :: Met(wf, w, d)
    ensures Stocked(cfg, tenantId, typeKey, w, demands, calls, id, ids)
    decreases |w|, |demands|
  {
    hide Stocked, Creatable;
    var n := |w| - 1;
    if n == 0 && demands != [] {
      assert Met(wf, w, demands[0]) && demands[0].at == n;
    }
    if n == 0 && demands == [] {
      calls, id := Begin(cfg, tenantId, typeKey, wf);
      ids := [];
      assert w == [wf.initialState];
    } else if p: nat :| p < |demands| && demands[p].at == n {
      var rest := demands[..p] + demands[p + 1..];
      var before, r, others := Follow(cfg, tenantId, typeKey, wf, w, rest);
      id := r;
      calls, ids := File(cfg, tenantId, typeKey, wf, w, demands, p, before, id, others);
    } else {
      var init := w[..n];
      assert WalkStep(wf, w, n);
      PrefixIsWalk(wf, w, n);
      DemandsOnPrefix(wf, w, demands);
      if Takable(wf, false, w[n - 1], w[n]) {
        var before, r, held := Follow(cfg, tenantId, typeKey, wf, init, demands);
        id, ids := r, held;
        calls := Advance(cfg, tenantId, typeKey, wf, init, w[n], demands, before, id, ids);
      } else {
        var j: nat :| j < n && Takable(wf, true, w[j], w[n]);
        var t :| t in wf.transitions && Offered(wf, t) && t.requiresApproval && t.from == w[j] && t.to == w[n];
        var last := Demand(j, t);
        assert Met(wf, init, last);
        var before, r, held := Follow(cfg, tenantId, typeKey, wf, init, demands + [last]);
        id := r;
        calls, ids := Redeem(cfg, tenantId, typeKey, init, demands, last, before, id, held);
      }
      assert w == init + [w[n]];
    }
  }

  lemma PrefixIsWalk(wf: Workflow, w: seq<string>, n: nat)
    requires Walk(wf, w) && 0 < n <= |w|
    ensures Walk(wf, w[..n])
  {
    forall k | 0 < k < n ensures WalkStep(wf, w[..n], k) {
      assert WalkStep(wf, w, k);
      assert forall j | 0 <= j <= k :: w[..n][j] == w[j];
    }
  }

  lemma DemandsOnPrefix(wf: Workflow, w: seq<string>, demands: seq<Demand>)
    requires w != [] && forall d | d in demands :: Met(wf, w, d) && d.at != |w| - 1
    ensures forall d | d in demands :: Met(wf, w[..|w| - 1], d)
  {
  }

  /** Over all runs, the state histories of a type's records are exactly the walks of its workflow:
      from the initial state, each step an ungated edge from the state before or to the target of
      a gated edge out of an earlier state; provided some record of the type can be made. */
  lemma HistoriesAreExactlyTheWalks(cfg: Config, tenantId: string, typeKey: string, wf: Workflow, w: seq<string>)
    requires ConfigValid(cfg) && WorkflowOf(cfg, tenantId, typeKey) == Some(wf)
    ensures Attainable(cfg, tenantId, typeKey, w) <==> Creatable(cfg, tenantId, typeKey) && Walk(wf, w)
  {
    hide Creatable, Walk, At;
    if Attainable(cfg, tenantId, typeKey, w) {
      var calls, id :| FreshRun(cfg, calls) && At(cfg, Run(cfg, calls), tenantId, typeKey, id, w);
      HistoriesAreWalks(cfg, calls, tenantId, typeKey, wf, id, w);
    }
    if Creatable(cfg, tenantId, typeKey) && Walk(wf, w) {
      var calls, id, ids := Follow(cfg, tenantId, typeKey, wf, w, []);
    }
  }

  // ---- when a step leaves the graph ------------------------------------------------------------------------

  /** Some run takes a record of the type along a step that is no edge a request can take. */
  ghost predicate StraysOffEdges(cfg: Config, tenantId: string, typeKey: string, wf: Workflow) {
    exists w, k | Attainable(cfg, tenantId, typeKey, w) && 0 < k < |w| :: !EdgeStep(wf, w, k)
  }

  /** A gated edge s to t that a record can ask for, and a state u it can move on to, from which no
      edge leads to t. */
  ghost predicate DriftProne(wf: Workflow) {
    exists t, u | t in wf.transitions && Offered(wf, t) && t.requiresApproval ::
      Reaches(wf, wf.initialState, t.from) && Reaches(wf, t.from, u) && !Edge(wf, u, t.to)
  }

  lemma GatedStep(wf: Workflow, w: seq<string>, k: int) returns (j: nat, t: Transition)
    requires 0 < k < |w| && WalkStep(wf, w, k) && !Takable(wf, false, w[k - 1], w[k])
    ensures j < k && t in wf.transitions && Offered(wf, t) && t.requiresApproval && t.from == w[j] && t.to == w[k]
  {
    j :| j < k && Takable(wf, true, w[j], w[k]);
    t :| t in wf.transitions && Offered(wf, t) && t.requiresApproval && t.from == w[j] && t.to == w[k];
  }

  lemma SlicesArePaths(wf: Workflow, w: seq<string>, a: nat, b: nat)
    requires a < b <= |w| && forall k | 0 < k < b :: EdgeStep(wf, w, k)
    ensures Path(wf, w[a..b]) && Reaches(wf, w[a], w[b - 1])
  {
    var p := w[a..b];
    forall k | 0 < k < |p| ensures EdgeStep(wf, p, k) {
      assert EdgeStep(wf, w, a + k);
    }
    assert p[0] == w[a] && p[|p| - 1] == w[b - 1];
  }

  /** Before its first stray step a walk runs along edges, which lead to that step's source and on
      from there to the state it strays from. */
  lemma StrayWalkShowsDrift(wf: Workflow, w: seq<string>, k: int)
    requires Walk(wf, w) && 0 < k < |w| && !EdgeStep(wf, w, k)
    ensures DriftProne(wf)
    decreases k
  {
    if i :| 0 < i < k && !EdgeStep(wf, w, i) {
      StrayWalkShowsDrift(wf, w, i);
    } else {
      assert WalkStep(wf, w, k);
      var j, t := GatedStep(wf, w, k);
      SlicesArePaths(wf, w, 0, j + 1);
      SlicesArePaths(wf, w, j, k);
      assert !Edge(wf, w[k - 1], t.to);
    }
  }

  lemma EdgesAreWalkSteps(wf: Workflow, w: seq<string>, k: int)
    requires 0 < k < |w| && EdgeStep(wf, w, k)
    ensures WalkStep(wf, w, k)
  {
    if !Takable(wf, false, w[k - 1], w[k]) {
      var j := k - 1;
      assert Takable(wf, true, w[j], w[k]);
    }
  }

  /** The walk along p to the gated edge's source, on along q, and then to the edge's target. */
  lemma DriftWalk(wf: Workflow, p: seq<string>, q: seq<string>, t: Transition) returns (w: seq<string>)
    requires Path(wf, p) && p[0] == wf.initialState && p[|p| - 1] == t.from
    requires Path(wf, q) && q[0] == t.from
    requires t in wf.transitions && Offered(wf, t) && t.requiresApproval
    ensures Walk(wf, w) && |w| > 1 && w[|w| - 1] == t.to && w[|w| - 2] == q[|q| - 1]
  {
    w := p + q[1..] + [t.to];
    var m, n := |p| - 1, |w| - 1;
    forall k | 0 < k < |w| ensures WalkStep(wf, w, k) {
      if k <= m {
        assert EdgeStep(wf, p, k) && w[k - 1] == p[k - 1] && w[k] == p[k];
        EdgesAreWalkSteps(wf, w, k);
      } else if k < n {
        assert EdgeStep(wf, q, k - m) && w[k - 1] == q[k - m - 1] && w[k] == q[k - m];
        EdgesAreWalkSteps(wf, w, k);
      } else {
        assert w[m] == t.from && Takable(wf, true, w[m], w[k]);
      }
    }
  }

  /** Approvals can take a record along a step that is no edge exactly when, in the graph of edges
      that requests can take, some gated edge s to t has a source reachable from the initial state
      and some state reachable from s has no edge to t. */
  lemma ApprovalsStrayExactlyWhenDriftProne(cfg: Config, tenantId: string, typeKey: string, wf: Workflow)
    requires ConfigValid(cfg) && WorkflowOf(cfg, tenantId, typeKey) == Some(wf)
    ensures StraysOffEdges(cfg, tenantId, typeKey, wf) <==> Creatable(cfg, tenantId, typeKey) && DriftProne(wf)
  {
    hide Attainable, Creatable, Walk, EdgeStep, Path;
    if StraysOffEdges(cfg, tenantId, typeKey, wf) {
      var w, k :| Attainable(cfg, tenantId, typeKey, w) && 0 < k < |w| && !EdgeStep(wf, w, k);
      HistoriesAreExactlyTheWalks(cfg, tenantId, typeKey, wf, w);
      StrayWalkShowsDrift(wf, w, k);
    }
    if Creatable(cfg, tenantId, typeKey) && DriftProne(wf) {
      var t, u :| t in wf.transitions && Offered(wf, t) && t.requiresApproval
                  && Reaches(wf, wf.initialState, t.from) && Reaches(wf, t.from, u) && !Edge(wf, u, t.to);
      var w := DriftTo(wf, t, u);
      HistoriesAreExactlyTheWalks(cfg, tenantId, typeKey, wf, w);
      NoEdgeAtEnd(wf, w);
    }
  }

  lemma DriftTo(wf: Workflow, t: Transition, u: string) returns (w: seq<string>)
    requires t in wf.transitions && Offered(wf, t) && t.requiresApproval
    requires Reaches(wf, wf.initialState, t.from) && Reaches(wf, t.from, u)
    ensures Walk(wf, w) && |w| > 1 && w[|w| - 1] == t.to && w[|w| - 2] == u
  {
    var p :| Path(wf, p) && p[0] == wf.initialState && p[|p| - 1] == t.from;
    var q :| Path(wf, q) && q[0] == t.from && q[|q| - 1] == u;
    w := DriftWalk(wf, p, q, t);
  }

  lemma NoEdgeAtEnd(wf: Workflow, w: seq<string>)
    requires |w| > 1
    ensures EdgeStep(wf, w, |w| - 1) <==> Edge(wf, w[|w| - 2], w[|w| - 1])
  {
  }

  // ---- declared steps -------------------------------------------------------------------------------------

  /** Every declared transition is one a request can take: no two share key and source. */
  predicate Unshadowed(wf: Workflow) {
    forall t | t in wf.transitions :: Offered(wf, t)
  }

  /** Some run takes a record of the type along a step that is not declared. */
  ghost predicate StraysOffDeclared(cfg: Config, tenantId: string, typeKey: string, wf: Workflow) {
    exists w, k | Attainable(cfg, tenantId, typeKey, w) && 0 < k < |w| :: !DeclaredStep(wf, w, k)
  }

  /** The same as DriftProne, said with declared transitions. */
  ghost predicate DeclaredDriftProne(wf: Workflow) {
    exists t, u | t in wf.transitions && Offered(wf, t) && t.requiresApproval ::
      Reaches(wf, wf.initialState, t.from) && Reaches(wf, t.from, u) && !Declared(wf, u, t.to)
  }

  lemma EdgesAreDeclared(wf: Workflow, from: string, to: string)
    ensures Edge(wf, from, to) ==> Declared(wf, from, to)
    ensures Unshadowed(wf) ==> (Edge(wf, from, to) <==> Declared(wf, from, to))
  {
    if Unshadowed(wf) && Declared(wf, from, to) {
      var t :| t in wf.transitions && t.from == from && t.to == to;
      assert Takable(wf, t.requiresApproval, from, to);
    }
  }

  /** In a workflow without shadowed transitions: some run takes a step that is not declared exactly
      when some gated edge s to t has s reachable from the initial state and some u reachable from
      s without a declared transition to t. */
  lemma UndeclaredStepsExactlyWhenDriftProne(cfg: Config, tenantId: string, typeKey: string, wf: Workflow)
    requires ConfigValid(cfg) && WorkflowOf(cfg, tenantId, typeKey) == Some(wf) && Unshadowed(wf)
    ensures StraysOffDeclared(cfg, tenantId, typeKey, wf)
            <==> Creatable(cfg, tenantId, typeKey) && DeclaredDriftProne(wf)
  {
    hide Attainable, Creatable, Edge, Declared, Unshadowed, Reaches;
    forall from, to ensures Edge(wf, from, to) <==> Declared(wf, from, to) {
      EdgesAreDeclared(wf, from, to);
    }
    ApprovalsStrayExactlyWhenDriftProne(cfg, tenantId, typeKey, wf);
    if StraysOffDeclared(cfg, tenantId, typeKey, wf) {
      var w, k :| Attainable(cfg, tenantId, typeKey, w) && 0 < k < |w| && !DeclaredStep(wf, w, k);
      assert !EdgeStep(wf, w, k);
    }
    if StraysOffEdges(cfg, tenantId, typeKey, wf) {
      var w, k :| Attainable(cfg, tenantId, typeKey, w) && 0 < k < |w| && !EdgeStep(wf, w, k);
      assert !DeclaredStep(wf, w, k);
    }
  }

  /** A gated edge whose source some walk visits, and a state that walk ends in without a declared
      transition to the edge's target. */
  ghost predicate WalksLeave(wf: Workflow) {
    exists w, t | Walk(wf, w) && t in wf.transitions && Offered(wf, t) && t.requiresApproval ::
      t.from in w && !Declared(wf, w[|w| - 1], t.to)
  }

  lemma WalkOn(wf: Workflow, w: seq<string>, j: nat, t: Transition)
    requires Walk(wf, w) && j < |w| && w[j] == t.from
    requires t in wf.transitions && Offered(wf, t) && t.requiresApproval
    ensures Walk(wf, w + [t.to])
  {
    var w' := w + [t.to];
    forall k | 0 < k < |w'| ensures WalkStep(wf, w', k) {
      if k < |w| {
        assert WalkStep(wf, w, k);
        assert forall i | 0 <= i <= k :: w'[i] == w[i];
      } else {
        assert w'[j] == t.from && Takable(wf, true, w'[j], w'[k]);
      }
    }
  }

  /** In any workflow, shadowed transitions or not: some run takes a step that is not declared
      exactly when a walk visits the source of a gated edge and ends in a state without a declared
      transition to its target. */
  lemma UndeclaredStepsExactlyWhenWalksLeave(cfg: Config, tenantId: string, typeKey: string, wf: Workflow)
    requires ConfigValid(cfg) && WorkflowOf(cfg, tenantId, typeKey) == Some(wf)
    ensures StraysOffDeclared(cfg, tenantId, typeKey, wf) <==> Creatable(cfg, tenantId, typeKey) && WalksLeave(wf)
  {
    hide Attainable, Creatable, Walk, Offered, Takable;
    if StraysOffDeclared(cfg, tenantId, typeKey, wf) {
      var w, k :| Attainable(cfg, tenantId, typeKey, w) && 0 < k < |w| && !DeclaredStep(wf, w, k);
      HistoriesAreExactlyTheWalks(cfg, tenantId, typeKey, wf, w);
      UndeclaredIsGated(wf, w, k);
    }
    if Creatable(cfg, tenantId, typeKey) && WalksLeave(wf) {
      var w, t :| Walk(wf, w) && t in wf.transitions && Offered(wf, t) && t.requiresApproval
                  && t.from in w && !Declared(wf, w[|w| - 1], t.to);
      var j: nat :| j < |w| && w[j] == t.from;
      WalkOn(wf, w, j, t);
      HistoriesAreExactlyTheWalks(cfg, tenantId, typeKey, wf, w + [t.to]);
      assert !DeclaredStep(wf, w + [t.to], |w|);
    }
  }

  lemma UndeclaredIsGated(wf: Workflow, w: seq<string>, k: int)
    requires Walk(wf, w) && 0 < k < |w| && !DeclaredStep(wf, w, k)
    ensures WalksLeave(wf)
  {
    assert WalkStep(wf, w, k);
    EdgesAreDeclared(wf, w[k - 1], w[k]);
    var j, t := GatedStep(wf, w, k);
    PrefixIsWalk(wf, w, k);
    assert w[..k][j] == t.from;
    assert w[..k][k - 1] == w[k - 1];
  }

  // ---- why the last result speaks of walks ----------------------------------------------------------------

  predicate Distinct(start: string, open: string, work: string, done: string) {
    start != open && start != work && start != done && open != work && open != done && work != done
  }

  function Ungated(key: string, from: string, to: string): Transition {
    Transition(key, from, to, "", None, false, None)
  }

  function Gated(key: string, from: string, to: string): Transition {
    Transition(key, from, to, "", None, true, None)
  }

  /** A workflow two of whose transitions, work to open and done to open, are shadowed: others with
      the same key and source come before them, so no request can take them. */
  function Shadowed(start: string, open: string, work: string, done: string): Workflow {
    Workflow("", "", start, [start, open, work, done],
             [Gated(open, start, open), Ungated(work, start, work), Gated(done, work, done), Ungated(done, work, open),
              Ungated(done, done, done), Ungated(done, done, open), Ungated(open, open, open)])
  }

  lemma {:induction false} PathStaysIn(wf: Workflow, p: seq<string>, states: set<string>)
    requires Path(wf, p) && p[0] in states
    requires forall from, to | from in states && Edge(wf, from, to) :: to in states
    ensures p[|p| - 1] in states
  {
    if |p| > 1 {
      var n := |p| - 1;
      assert EdgeStep(wf, p, n);
      forall k | 0 < k < n ensures EdgeStep(wf, p[..n], k) {
        assert EdgeStep(wf, p, k);
      }
      PathStaysIn(wf, p[..n], states);
    }
  }

  lemma ReachStaysIn(wf: Workflow, a: string, b: string, states: set<string>)
    requires Reaches(wf, a, b) && a in states
    requires forall from, to | from in states && Edge(wf, from, to) :: to in states
    ensures b in states
  {
    var p :| Path(wf, p) && p[0] == a && p[|p| - 1] == b;
    PathStaysIn(wf, p, states);
  }

  lemma {:induction false} FirstOf(ts: seq<Transition>, i: nat)
    requires i < |ts| && forall j | 0 <= j < i :: ts[j].key != ts[i].key || ts[j].from != ts[i].from
    ensures TransitionFrom(ts, ts[i].from, ts[i].key) == Some(ts[i])
  {
    if i > 0 {
      FirstOf(ts[1..], i - 1);
    }
  }

  /** What requests can take: everything but the two shadowed transitions. */
  lemma ShadowedOffers(start: string, open: string, work: string, done: string, t: Transition)
    requires Distinct(start, open, work, done)
    requires t in Shadowed(start, open, work, done).transitions
    ensures Offered(Shadowed(start, open, work, done), t)
            <==> t != Ungated(done, work, open) && t != Ungated(done, done, open)
  {
    hide TransitionFrom;
    var ts := Shadowed(start, open, work, done).transitions;
    var i :| 0 <= i < 7 && ts[i] == t;
    ShadowedFirst(start, open, work, done, if i == 3 || i == 5 then i - 1 else i);
  }

  lemma ShadowedFirst(start: string, open: string, work: string, done: string, i: nat)
    requires Distinct(start, open, work, done) && i < 7 && i != 3 && i != 5
    ensures var ts := Shadowed(start, open, work, done).transitions;
            TransitionFrom(ts, ts[i].from, ts[i].key) == Some(ts[i])
  {
    hide TransitionFrom;
    FirstOf(Shadowed(start, open, work, done).transitions, i);
  }

  lemma ShadowedEdges(start: string, open: string, work: string, done: string, from: string, to: string)
    requires Distinct(start, open, work, done) && Edge(Shadowed(start, open, work, done), from, to)
    ensures || (from == start && (to == open || to == work)) || (from == work && to == done)
            || (from == done && to == done) || (from == open && to == open)
  {
    hide Offered;
    var wf := Shadowed(start, open, work, done);
    var t :| t in wf.transitions && Offered(wf, t) && t.from == from && t.to == to;
    ShadowedOffers(start, open, work, done, t);
  }

  lemma ShadowedDeclares(start: string, open: string, work: string, done: string)
    ensures var wf := Shadowed(start, open, work, done);
            && (forall u | u in {start, open, work, done} :: Declared(wf, u, open))
            && (forall u | u in {work, done} :: Declared(wf, u, done))
  {
    var ts := Shadowed(start, open, work, done).transitions;
    assert ts[0] in ts && ts[2] in ts && ts[3] in ts && ts[4] in ts && ts[5] in ts && ts[6] in ts;
  }

  lemma ShadowedIsNotProne(start: string, open: string, work: string, done: string)
    requires Distinct(start, open, work, done)
    ensures !DeclaredDriftProne(Shadowed(start, open, work, done))
  {
    hide Offered, Edge, Declared, Reaches;
    var wf := Shadowed(start, open, work, done);
    forall from, to | Edge(wf, from, to)
      ensures from in {start, open, work, done} ==> to in {start, open, work, done}
      ensures from in {work, done} ==> to in {work, done}
    {
      ShadowedEdges(start, open, work, done, from, to);
    }
    ShadowedDeclares(start, open, work, done);
    forall t, u | t in wf.transitions && Offered(wf, t) && t.requiresApproval && Reaches(wf, t.from, u)
      ensures Declared(wf, u, t.to)
    {
      if t == Gated(open, start, open) {
        ReachStaysIn(wf, start, u, {start, open, work, done});
      } else {
        ReachStaysIn(wf, work, u, {work, done});
      }
    }
  }

  lemma ShadowedWalk(start: string, open: string, work: string, done: string)
    requires Distinct(start, open, work, done)
    ensures Walk(Shadowed(start, open, work, done), [start, work, open])
  {
    hide Offered;
    var wf, w := Shadowed(start, open, work, done), [start, work, open];
    assert wf.transitions[0] in wf.transitions && wf.transitions[1] in wf.transitions;
    ShadowedOffers(start, open, work, done, wf.transitions[0]);
    ShadowedOffers(start, open, work, done, wf.transitions[1]);
    assert Takable(wf, false, w[0], w[1]) && Takable(wf, true, w[0], w[2]);
    assert WalkStep(wf, w, 1) && WalkStep(wf, w, 2);
  }

  /** With shadowed transitions reachability is not enough. Here every state reachable from a gated
      edge's source declares a transition to its target, and still the walk start, work, open,
      done, with the last two steps by approval, ends in an undeclared one: it gets to open along a
      declared transition that no request can take. */
  lemma ShadowsNeedWalks(start: string, open: string, work: string, done: string)
    requires Distinct(start, open, work, done)
    ensures var wf := Shadowed(start, open, work, done); !DeclaredDriftProne(wf) && WalksLeave(wf)
  {
    hide Offered, DeclaredDriftProne, Walk;
    var wf, w := Shadowed(start, open, work, done), [start, work, open];
    ShadowedIsNotProne(start, open, work, done);
    ShadowedWalk(start, open, work, done);
    var t := wf.transitions[2];
    ShadowedOffers(start, open, work, done, t);
    assert w[1] in w && !Declared(wf, w[|w| - 1], t.to);
  }
}
