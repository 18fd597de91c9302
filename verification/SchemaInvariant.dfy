/** Every stored record obeys its type, over every run; and who may change which field. */
module SchemaInvariant {
  import opened Values
  import opened Contracts
  import opened Rbac
  import opened Store
  import opened Machine
  import opened Lawful
  import S = Services

  ghost predicate AllDataLawful(cfg: Config, db: Db) {
    forall id | id in db.records ::
      DataLawful(cfg, db.records[id].tenantId, db.records[id].objectType, db.records[id].data)
  }

  lemma LawfulKeepsData(cfg: Config, db: Db, ctx: AuthContext, tx: Tx)
    requires AllDataLawful(cfg, db) && LawfulTx(cfg, db, ctx, tx)
    ensures AllDataLawful(cfg, Commit(db, tx))
  {
    hide DataLawful;
  }

  /** In every run, every stored record's keys are declared fields, every declared field's
      value or absence fits the field, and system fields hold exactly their default. */
  lemma {:induction false} StoredDataAlwaysLawful(cfg: Config, calls: seq<Call>)
    requires ConfigValid(cfg)
    ensures forall id | id in Run(cfg, calls).records ::
              var r := Run(cfg, calls).records[id];
              && LoadType(cfg, r.tenantId, r.objectType).Some?
              && var otype := LoadType(cfg, r.tenantId, r.objectType).value;
              && (forall k | k in r.data :: exists f | f in otype.fields :: f.key == k)
              && (forall f | f in otype.fields ::
                    ValueFits(f, if f.key in r.data then r.data[f.key] else Null, cfg.isTimestamp))
              && (forall f | f in otype.fields && f.system :: Lookup(r.data, f.key) == f.default)
  {
    DataLawfulInRuns(cfg, calls);
    var db := Run(cfg, calls);
    forall id | id in db.records
      ensures var r := db.records[id]; var otype := LoadType(cfg, r.tenantId, r.objectType).value;
              forall k | k in r.data :: exists f | f in otype.fields :: f.key == k
    {
      var r := db.records[id];
      var otype := LoadType(cfg, r.tenantId, r.objectType).value;
      forall k | k in r.data ensures exists f | f in otype.fields :: f.key == k {
        assert FieldOf(otype.fields, k).value in otype.fields;
      }
    }
  }

  lemma {:induction false} DataLawfulInRuns(cfg: Config, calls: seq<Call>)
    requires ConfigValid(cfg)
    ensures AllDataLawful(cfg, Run(cfg, calls))
  {
    if calls != [] {
      var init, c := calls[..|calls| - 1], calls[|calls| - 1];
      DataLawfulInRuns(cfg, init);
      RunIsWellFormed(cfg, init);
      EveryCallIsLawful(cfg, Run(cfg, init), c);
      LawfulKeepsData(cfg, Run(cfg, init), c.ctx, Decide(cfg, Run(cfg, init), c).tx);
    }
  }

  function StoredField(db: Db, id: string, key: string): Option<Value> {
    if id in db.records then Lookup(db.records[id].data, key) else None
  }

  /** The only call that changes a stored record's field is an authorized update of that record
      which names the field, by a caller whose update grants permit it; in particular no call
      changes a system field or a restricted field its caller may not write. */
  lemma OnlyPermittedUpdatesChangeFields(cfg: Config, db: Db, c: Call, id: string, key: string)
    requires ConfigValid(cfg) && WellFormed(db) && id in db.records
    requires StoredField(Step(cfg, db, c), id, key) != StoredField(db, id, key)
    ensures c.op.UpdateOp? && c.op.id == id && db.records[id].tenantId == c.ctx.tenantId
    ensures exists e | e in c.op.patch :: e.0 == key
    ensures var r := db.records[id];
            var resource := ObjectResource(r.objectType);
            && Authorized(cfg, c.ctx, Update, resource, Some(r))
            && LoadType(cfg, r.tenantId, r.objectType).Some?
            && Editable(LoadType(cfg, r.tenantId, r.objectType).value,
                        GrantsFor(cfg, c.ctx, Update, resource, Some(r)), key)
  {
    hide LawfulTx, ConfigValid;
    var tx := Decide(cfg, db, c).tx;
    EveryCallIsLawful(cfg, db, c);
    DataChangesAreLogged(cfg, db, c.ctx, tx, id);
    OnlyUpdatesLogUpdates(cfg, db, c);
    UpdateTouchesOnlyEditable(cfg, db, c.ctx, c.op.id, c.op.patch, c.now, key);
  }

  lemma DataChangesAreLogged(cfg: Config, db: Db, ctx: AuthContext, tx: Tx, id: string)
    requires WellFormed(db) && LawfulTx(cfg, db, ctx, tx) && id in db.records
    requires id in Commit(db, tx).records ==> Commit(db, tx).records[id].data != db.records[id].data
    ensures tx.ReplaceRecord? && tx.event.verb.RecordUpdated? && tx.record.id == id
  {
    hide TakableEdge, DataLawful;
  }

  lemma UpdateTouchesOnlyEditable(
    cfg: Config, db: Db, ctx: AuthContext, id: string, patch: seq<(string, Value)>, now: int, key: string)
    requires WellFormed(db)
    requires var tx := S.UpdateRecord(cfg, db, ctx, id, patch, now).tx;
             tx.ReplaceRecord? && Lookup(tx.record.data, key) != Lookup(db.records[tx.record.id].data, key)
    ensures id in db.records && S.UpdateRecord(cfg, db, ctx, id, patch, now).tx.record.id == id
    ensures exists e | e in patch :: e.0 == key
    ensures var r := db.records[id];
            var resource := ObjectResource(r.objectType);
            && Authorized(cfg, ctx, Update, resource, Some(r))
            && r.tenantId == ctx.tenantId
            && LoadType(cfg, r.tenantId, r.objectType).Some?
            && Editable(LoadType(cfg, r.tenantId, r.objectType).value,
                        GrantsFor(cfg, ctx, Update, resource, Some(r)), key)
  {
    var r := db.records[id];
    var otype := LoadType(cfg, r.tenantId, r.objectType).value;
    EditsTouchOnlyEditable(otype, GrantsFor(cfg, ctx, Update, ObjectResource(r.objectType), Some(r)),
                           r.data, patch, true, key);
  }

  lemma OnlyUpdatesLogUpdates(cfg: Config, db: Db, c: Call)
    requires var tx := Decide(cfg, db, c).tx; tx.ReplaceRecord? && tx.event.verb.RecordUpdated?
    ensures c.op.UpdateOp?
  {
    match c.op {
      case UpdateOp(_, _) =>
      case TransitionOp(_, _, _, _, _) =>
      case _ =>
    }
  }
}
