/** Exactly when a scan or a report depends on a field the caller cannot see. */
module ReportIndependence {
  import opened Values
  import opened Contracts
  import opened Rbac
  import opened Sorting
  import opened Store
  import opened ReadPath
  import opened Analytics
  import S = Services

  /** Some condition of the grants reads the record field. */
  predicate ConditionReads(grants: seq<Grant>, key: string) {
    exists g, c | g in grants && c in g.conditions ::
      NamesRecordField(c.field) && RecordField(c.field) == key
  }

  predicate FilterReads(filters: seq<FieldFilter>, key: string) {
    exists f | f in filters :: f.field == key
  }

  /** A restricted field the caller's read grants on this record do not permit, and which is
      neither an owner field, nor a condition field, nor a filter field. */
  predicate Hidden(
    cfg: Config, ctx: AuthContext, otype: ObjectType, objectType: string, filters: seq<FieldFilter>, r: Record,
    key: string)
  {
    var grants := EffectiveGrants(cfg.roles, ctx);
    && !Trusted(ctx)
    && key !in OWNER_FIELDS && !ConditionReads(grants, key) && !FilterReads(filters, key)
    && !FieldPermitted(Applicable(cfg.advancedPermissions, grants, ctx, Read, ObjectResource(objectType), Some(r)),
                       otype, key)
  }

  /** The records agree except in data the caller cannot see. */
  ghost predicate Alike(
    cfg: Config, ctx: AuthContext, otype: ObjectType, objectType: string, filters: seq<FieldFilter>, r: Record,
    s: Record)
  {
    && r.(data := s.data) == s
    && forall key :: Lookup(r.data, key) == Lookup(s.data, key)
                     || Hidden(cfg, ctx, otype, objectType, filters, r, key)
  }

  lemma AlikeOwner(
    cfg: Config, ctx: AuthContext, otype: ObjectType, objectType: string, filters: seq<FieldFilter>, r: Record,
    s: Record)
    requires Alike(cfg, ctx, otype, objectType, filters, r, s)
    ensures OwnedBy(r, ctx.actorId) == OwnedBy(s, ctx.actorId)
  {
    forall k | k in OWNER_FIELDS ensures Lookup(r.data, k) == Lookup(s.data, k) {
    }
    if k :| k in OWNER_FIELDS && k in r.data && r.data[k] == Str(ctx.actorId) {
      assert Lookup(s.data, k) == Some(Str(ctx.actorId));
    }
    if k :| k in OWNER_FIELDS && k in s.data && s.data[k] == Str(ctx.actorId) {
      assert Lookup(r.data, k) == Some(Str(ctx.actorId));
    }
  }

  lemma AlikeConditions(
    cfg: Config, ctx: AuthContext, otype: ObjectType, objectType: string, filters: seq<FieldFilter>, r: Record,
    s: Record, g: Grant)
    requires Alike(cfg, ctx, otype, objectType, filters, r, s) && g in EffectiveGrants(cfg.roles, ctx)
    ensures ConditionsHold(g.conditions, ctx, Some(r)) == ConditionsHold(g.conditions, ctx, Some(s))
  {
  }

  lemma AlikeGrant(
    cfg: Config, ctx: AuthContext, otype: ObjectType, objectType: string, filters: seq<FieldFilter>, r: Record,
    s: Record, g: Grant)
    requires Alike(cfg, ctx, otype, objectType, filters, r, s) && g in EffectiveGrants(cfg.roles, ctx)
    ensures GrantApplies(cfg.advancedPermissions, g, ctx, Read, ObjectResource(objectType), Some(r))
            == GrantApplies(cfg.advancedPermissions, g, ctx, Read, ObjectResource(objectType), Some(s))
  {
    AlikeOwner(cfg, ctx, otype, objectType, filters, r, s);
    AlikeConditions(cfg, ctx, otype, objectType, filters, r, s, g);
  }

  lemma {:induction false} AlikeApplicable(
    cfg: Config, ctx: AuthContext, otype: ObjectType, objectType: string, filters: seq<FieldFilter>, r: Record,
    s: Record, grants: seq<Grant>)
    requires Alike(cfg, ctx, otype, objectType, filters, r, s)
    requires forall g | g in grants :: g in EffectiveGrants(cfg.roles, ctx)
    ensures Applicable(cfg.advancedPermissions, grants, ctx, Read, ObjectResource(objectType), Some(r))
            == Applicable(cfg.advancedPermissions, grants, ctx, Read, ObjectResource(objectType), Some(s))
  {
    if grants != [] {
      AlikeApplicable(cfg, ctx, otype, objectType, filters, r, s, grants[..|grants| - 1]);
      AlikeGrant(cfg, ctx, otype, objectType, filters, r, s, grants[|grants| - 1]);
    }
  }

  /** Alike records are selected alike and shown as the same record. */
  lemma AlikeShown(
    cfg: Config, ctx: AuthContext, otype: ObjectType, objectType: string, filters: seq<FieldFilter>, archived: bool,
    r: Record, s: Record)
    requires Alike(cfg, ctx, otype, objectType, filters, r, s)
    ensures var grants, f := EffectiveGrants(cfg.roles, ctx), ScanFilter(filters, archived);
            && Selected(cfg, ctx, grants, objectType, f, r) == Selected(cfg, ctx, grants, objectType, f, s)
            && Shown(cfg, ctx, grants, otype, objectType, r) == Shown(cfg, ctx, grants, otype, objectType, s)
  {
    var grants := EffectiveGrants(cfg.roles, ctx);
    AlikeReadable(cfg, ctx, otype, objectType, filters, r, s);
    AlikeFiltered(cfg, ctx, otype, objectType, filters, r, s);
    AlikeApplicable(cfg, ctx, otype, objectType, filters, r, s, grants);
    if Trusted(ctx) {
      assert forall key :: Lookup(r.data, key) == Lookup(s.data, key);
      SameData(r.data, s.data);
    } else {
      AlikeProjected(cfg, ctx, otype, objectType, filters, r, s);
    }
  }

  lemma SameData(a: Fields, b: Fields)
    requires forall key :: Lookup(a, key) == Lookup(b, key)
    ensures a == b
  {
    forall k ensures k in a <==> k in b {
      assert Lookup(a, k) == Lookup(b, k);
    }
    forall k | k in a ensures a[k] == b[k] {
      assert Lookup(a, k) == Lookup(b, k);
    }
  }

  lemma AlikeReadable(
    cfg: Config, ctx: AuthContext, otype: ObjectType, objectType: string, filters: seq<FieldFilter>, r: Record,
    s: Record)
    requires Alike(cfg, ctx, otype, objectType, filters, r, s)
    ensures var grants := EffectiveGrants(cfg.roles, ctx);
            Readable(cfg, ctx, grants, objectType, r) == Readable(cfg, ctx, grants, objectType, s)
  {
    forall g | g in EffectiveGrants(cfg.roles, ctx)
      ensures GrantApplies(cfg.advancedPermissions, g, ctx, Read, ObjectResource(objectType), Some(r))
              == GrantApplies(cfg.advancedPermissions, g, ctx, Read, ObjectResource(objectType), Some(s))
    {
      AlikeGrant(cfg, ctx, otype, objectType, filters, r, s, g);
    }
  }

  lemma AlikeFiltered(
    cfg: Config, ctx: AuthContext, otype: ObjectType, objectType: string, filters: seq<FieldFilter>, r: Record,
    s: Record)
    requires Alike(cfg, ctx, otype, objectType, filters, r, s)
    ensures MatchesFilters(r, filters) == MatchesFilters(s, filters)
  {
    forall f | f in filters ensures MatchesFilter(r, f) == MatchesFilter(s, f) {
      assert FilterReads(filters, f.field);
      assert Lookup(r.data, f.field) == Lookup(s.data, f.field);
    }
  }

  lemma AlikeProjected(
    cfg: Config, ctx: AuthContext, otype: ObjectType, objectType: string, filters: seq<FieldFilter>, r: Record,
    s: Record)
    requires Alike(cfg, ctx, otype, objectType, filters, r, s)
    requires !Trusted(ctx)
    ensures var seen := Applicable(cfg.advancedPermissions, EffectiveGrants(cfg.roles, ctx), ctx, Read,
                                   ObjectResource(objectType), Some(r));
            Project(r, seen, otype) == Project(s, seen, otype)
  {
    var seen := Applicable(cfg.advancedPermissions, EffectiveGrants(cfg.roles, ctx), ctx, Read,
                           ObjectResource(objectType), Some(r));
    ProjectedData(r, s, seen, otype);
  }

  lemma ProjectedData(r: Record, s: Record, seen: seq<Grant>, otype: ObjectType)
    requires r.(data := s.data) == s
    requires forall key :: FieldPermitted(seen, otype, key) ==> Lookup(r.data, key) == Lookup(s.data, key)
    ensures Project(r, seen, otype) == Project(s, seen, otype)
  {
  }

  // ---- whole scans -------------------------------------------------------------------------------

  /** Nothing a report computes tells the records apart. */
  ghost predicate ReportEqual(cfg: Config, a: Record, b: Record) {
    forall f ::
      Contribution(a, Some(f)) == Contribution(b, Some(f)) && GroupKey(a, f, cfg.render) == GroupKey(b, f, cfg.render)
  }

  /** What has to agree of two shown records: everything, or what reports compute. */
  ghost predicate SameShown(cfg: Config, exact: bool, a: Record, b: Record) {
    if exact then a == b else ReportEqual(cfg, a, b)
  }

  /** The rows agree but for data, are selected alike and, if selected, shown alike. */
  ghost predicate SameView(
    cfg: Config, ctx: AuthContext, otype: ObjectType, objectType: string, filter: RecordFilter, exact: bool, r: Record,
    s: Record)
  {
    var grants := EffectiveGrants(cfg.roles, ctx);
    && r.(data := s.data) == s
    && Selected(cfg, ctx, grants, objectType, filter, r) == Selected(cfg, ctx, grants, objectType, filter, s)
    && (Selected(cfg, ctx, grants, objectType, filter, r) ==>
          SameShown(cfg, exact, Shown(cfg, ctx, grants, otype, objectType, r),
                    Shown(cfg, ctx, grants, otype, objectType, s)))
  }

  ghost predicate AllSameView(
    cfg: Config, ctx: AuthContext, otype: ObjectType, objectType: string, filter: RecordFilter, exact: bool,
    rows: seq<Record>, other: seq<Record>)
  {
    |rows| == |other|
    && forall i | 0 <= i < |rows| :: SameView(cfg, ctx, otype, objectType, filter, exact, rows[i], other[i])
  }

  ghost predicate RowsSame(cfg: Config, exact: bool, rows: seq<Record>, other: seq<Record>) {
    |rows| == |other| && forall i | 0 <= i < |rows| :: SameShown(cfg, exact, rows[i], other[i])
  }

  /** What the scan replies with for these candidates. */
  function View(
    cfg: Config, ctx: AuthContext, otype: ObjectType, objectType: string, filter: RecordFilter,
    rows: seq<Record>): seq<Record>
  {
    var grants := EffectiveGrants(cfg.roles, ctx);
    ShownAll(cfg, ctx, grants, otype, objectType, Select(cfg, ctx, grants, objectType, filter, rows))
  }

  lemma ViewOfLast(
    cfg: Config, ctx: AuthContext, otype: ObjectType, objectType: string, filter: RecordFilter, rows: seq<Record>)
    requires rows != []
    ensures var grants, last := EffectiveGrants(cfg.roles, ctx), rows[|rows| - 1];
            View(cfg, ctx, otype, objectType, filter, rows)
            == View(cfg, ctx, otype, objectType, filter, rows[..|rows| - 1])
               + if Selected(cfg, ctx, grants, objectType, filter, last)
                 then [Shown(cfg, ctx, grants, otype, objectType, last)] else []
  {
    hide Selected, Shown, EffectiveGrants;
    var grants := EffectiveGrants(cfg.roles, ctx);
    ShownAppend(cfg, ctx, grants, otype, objectType,
                Select(cfg, ctx, grants, objectType, filter, rows[..|rows| - 1]), rows[|rows| - 1]);
  }

  lemma {:induction false} ViewsAgree(
    cfg: Config, ctx: AuthContext, otype: ObjectType, objectType: string, filter: RecordFilter, exact: bool,
    rows: seq<Record>, other: seq<Record>)
    requires AllSameView(cfg, ctx, otype, objectType, filter, exact, rows, other)
    ensures RowsSame(cfg, exact, View(cfg, ctx, otype, objectType, filter, rows),
                     View(cfg, ctx, otype, objectType, filter, other))
  {
    hide Selected, Shown, SameShown, EffectiveGrants, View;
    if rows != [] {
      var n := |rows| - 1;
      ViewsAgree(cfg, ctx, otype, objectType, filter, exact, rows[..n], other[..n]);
      assert SameView(cfg, ctx, otype, objectType, filter, exact, rows[n], other[n]);
      ViewOfLast(cfg, ctx, otype, objectType, filter, rows);
      ViewOfLast(cfg, ctx, otype, objectType, filter, other);
    } else {
      NothingToView(cfg, ctx, otype, objectType, filter);
    }
  }

  lemma NothingToView(cfg: Config, ctx: AuthContext, otype: ObjectType, objectType: string, filter: RecordFilter)
    ensures View(cfg, ctx, otype, objectType, filter, []) == []
  {
  }

  lemma ShownAppend(
    cfg: Config, ctx: AuthContext, grants: seq<Grant>, otype: ObjectType, objectType: string, rows: seq<Record>,
    r: Record)
    ensures ShownAll(cfg, ctx, grants, otype, objectType, rows + [r])
            == ShownAll(cfg, ctx, grants, otype, objectType, rows) + [Shown(cfg, ctx, grants, otype, objectType, r)]
    ensures rows + [] == rows
  {
  }

  lemma {:induction false} InsertSameView(
    cfg: Config, ctx: AuthContext, otype: ObjectType, objectType: string, filter: RecordFilter, exact: bool,
    rows: seq<Record>, other: seq<Record>, r: Record, s: Record)
    requires AllSameView(cfg, ctx, otype, objectType, filter, exact, rows, other)
    requires SameView(cfg, ctx, otype, objectType, filter, exact, r, s)
    ensures AllSameView(cfg, ctx, otype, objectType, filter, exact,
                        Insert(NewestFirst, rows, r), Insert(NewestFirst, other, s))
  {
    hide Selected, Shown, SameShown, EffectiveGrants;
    if rows != [] {
      var n := |rows| - 1;
      assert SameView(cfg, ctx, otype, objectType, filter, exact, rows[n], other[n]);
      if Cmp(NewestFirst, rows[n], r).Greater? {
        InsertSameView(cfg, ctx, otype, objectType, filter, exact, rows[..n], other[..n], r, s);
      }
    }
  }

  lemma {:induction false} SortSameView(
    cfg: Config, ctx: AuthContext, otype: ObjectType, objectType: string, filter: RecordFilter, exact: bool,
    rows: seq<Record>, other: seq<Record>)
    requires AllSameView(cfg, ctx, otype, objectType, filter, exact, rows, other)
    ensures AllSameView(cfg, ctx, otype, objectType, filter, exact, Sorted(NewestFirst, rows),
                        Sorted(NewestFirst, other))
  {
    hide SameView;
    if rows != [] {
      var n := |rows| - 1;
      SortSameView(cfg, ctx, otype, objectType, filter, exact, rows[..n], other[..n]);
      InsertSameView(cfg, ctx, otype, objectType, filter, exact, Sorted(NewestFirst, rows[..n]),
                     Sorted(NewestFirst, other[..n]), rows[n], other[n]);
    }
  }

  /** Two stores with the same rows, whose candidates for the scan agree pair by pair; other
      records may differ in any data. */
  ghost predicate StoresSameView(
    cfg: Config, ctx: AuthContext, otype: ObjectType, objectType: string, filter: RecordFilter, exact: bool, db: Db,
    other: Db)
  {
    && db.order == other.order && db.records.Keys == other.records.Keys
    && forall id | id in db.records ::
         var r, s := db.records[id], other.records[id];
         r.(data := s.data) == s
         && (IsCandidate(r, ctx.tenantId, objectType, filter.includeArchived) ==>
               SameView(cfg, ctx, otype, objectType, filter, exact, r, s))
  }

  lemma {:induction false} MatchingSameView(
    cfg: Config, ctx: AuthContext, otype: ObjectType, objectType: string, filter: RecordFilter, exact: bool, db: Db,
    other: Db, order: seq<RowKey>)
    requires StoresSameView(cfg, ctx, otype, objectType, filter, exact, db, other)
    ensures AllSameView(cfg, ctx, otype, objectType, filter, exact,
                        MatchingRows(order, db.records, ctx.tenantId, objectType, filter.includeArchived),
                        MatchingRows(order, other.records, ctx.tenantId, objectType, filter.includeArchived))
  {
    hide SameView;
    if order != [] {
      MatchingSameView(cfg, ctx, otype, objectType, filter, exact, db, other, order[..|order| - 1]);
    }
  }

  /** On such stores scans reply with rows that agree one by one. */
  lemma ScansAgree(
    cfg: Config, ctx: AuthContext, otype: ObjectType, objectType: string, filters: seq<FieldFilter>, archived: bool,
    exact: bool, db: Db, other: Db)
    requires StoresSameView(cfg, ctx, otype, objectType, ScanFilter(filters, archived), exact, db, other)
    ensures RowsSame(cfg, exact, Scan(cfg, db, ctx, otype, objectType, filters, archived),
                     Scan(cfg, other, ctx, otype, objectType, filters, archived))
  {
    hide SameView, SameShown;
    var filter := ScanFilter(filters, archived);
    var rows := MatchingRows(db.order, db.records, ctx.tenantId, objectType, archived);
    var others := MatchingRows(db.order, other.records, ctx.tenantId, objectType, archived);
    MatchingSameView(cfg, ctx, otype, objectType, filter, exact, db, other, db.order);
    SortSameView(cfg, ctx, otype, objectType, filter, exact, rows, others);
    ViewsAgree(cfg, ctx, otype, objectType, filter, exact,
               Candidates(db, ctx.tenantId, objectType, archived),
               Candidates(other, ctx.tenantId, objectType, archived));
  }

  lemma SameRows(cfg: Config, rows: seq<Record>, other: seq<Record>)
    requires RowsSame(cfg, true, rows, other)
    ensures rows == other
  {
  }

  // ---- reports over rows that agree -----------------------------------------------------------------

  lemma {:induction false} NumbersAgree(cfg: Config, rows: seq<Record>, other: seq<Record>, field: Option<string>)
    requires RowsSame(cfg, false, rows, other)
    ensures Numbers(rows, field) == Numbers(other, field)
  {
    if rows != [] {
      var n := |rows| - 1;
      NumbersAgree(cfg, rows[..n], other[..n], field);
      assert SameShown(cfg, false, rows[n], other[n]);
    }
  }

  lemma ComputesAgree(cfg: Config, rows: seq<Record>, other: seq<Record>, op: AggOp, field: Option<string>)
    requires RowsSame(cfg, false, rows, other)
    ensures Compute(rows, op, field) == Compute(other, op, field)
  {
    NumbersAgree(cfg, rows, other, field);
  }

  ghost predicate BucketsSame(cfg: Config, bs: seq<Bucket>, cs: seq<Bucket>) {
    |bs| == |cs|
    && forall i | 0 <= i < |bs| :: bs[i].key == cs[i].key && RowsSame(cfg, false, bs[i].rows, cs[i].rows)
  }

  lemma {:induction false} AddToSame(cfg: Config, bs: seq<Bucket>, cs: seq<Bucket>, key: string, r: Record, s: Record)
    requires BucketsSame(cfg, bs, cs) && SameShown(cfg, false, r, s)
    ensures BucketsSame(cfg, AddTo(bs, key, r), AddTo(cs, key, s))
  {
    hide ReportEqual;
    if bs != [] && bs[0].key != key && !StrLess(key, bs[0].key) {
      AddToSame(cfg, bs[1..], cs[1..], key, r, s);
    }
  }

  lemma {:induction false} GroupsSame(cfg: Config, rows: seq<Record>, other: seq<Record>, field: string)
    requires RowsSame(cfg, false, rows, other)
    ensures BucketsSame(cfg, Group(rows, field, cfg.render), Group(other, field, cfg.render))
  {
    hide AddTo;
    if rows != [] {
      var n := |rows| - 1;
      GroupsSame(cfg, rows[..n], other[..n], field);
      assert SameShown(cfg, false, rows[n], other[n]);
      AddToSame(cfg, Group(rows[..n], field, cfg.render), Group(other[..n], field, cfg.render),
                GroupKey(rows[n], field, cfg.render), rows[n], other[n]);
    }
  }

  lemma SummariesSame(cfg: Config, bs: seq<Bucket>, cs: seq<Bucket>, op: AggOp, field: Option<string>)
    requires BucketsSame(cfg, bs, cs)
    ensures Summaries(bs, op, field) == Summaries(cs, op, field)
  {
    hide Compute, Summaries;
    forall i | 0 <= i < |bs| ensures Compute(bs[i].rows, op, field) == Compute(cs[i].rows, op, field) {
      ComputesAgree(cfg, bs[i].rows, cs[i].rows, op, field);
    }
  }

  lemma ReportsAgree(cfg: Config, rows: seq<Record>, other: seq<Record>, def: ReportDef)
    requires RowsSame(cfg, false, rows, other)
    ensures Report(rows, def, cfg.render) == Report(other, def, cfg.render)
  {
    hide Summaries, Compute, Group, BucketsSame;
    if def.groupBy.Some? {
      GroupsSame(cfg, rows, other, def.groupBy.value);
      SummariesSame(cfg, Group(rows, def.groupBy.value, cfg.render), Group(other, def.groupBy.value, cfg.render),
                    def.op, def.field);
    } else {
      ComputesAgree(cfg, rows, other, def.op, def.field);
    }
  }

  // ---- hidden data, several fields at once --------------------------------------------------------------

  /** Two stores with the same rows, whose records of the type differ at most in data hidden
      from the caller; records of other types may differ in any data. */
  ghost predicate StoresAlike(
    cfg: Config, ctx: AuthContext, otype: ObjectType, objectType: string, filters: seq<FieldFilter>, db: Db, other: Db)
  {
    && db.order == other.order && db.records.Keys == other.records.Keys
    && forall id | id in db.records ::
         var r, s := db.records[id], other.records[id];
         r.(data := s.data) == s
         && (r.objectType == objectType ==> Alike(cfg, ctx, otype, objectType, filters, r, s))
  }

  /** A scan, and any report over it, is the same on two stores that differ only in data hidden from
      the caller that no read grant, owner scope or filter looks at. */
  lemma ReportsIgnoreHiddenData(
    cfg: Config, ctx: AuthContext, def: ReportDef, archived: bool, db: Db, other: Db, now: int)
    requires LoadType(cfg, ctx.tenantId, def.objectType).Some?
    requires StoresAlike(cfg, ctx, LoadType(cfg, ctx.tenantId, def.objectType).value, def.objectType, def.filters, db,
                         other)
    ensures S.ScanRecords(cfg, db, ctx, def.objectType, def.filters, archived, now)
            == S.ScanRecords(cfg, other, ctx, def.objectType, def.filters, archived, now)
    ensures S.RunReportDef(cfg, db, ctx, def, now) == S.RunReportDef(cfg, other, ctx, def, now)
  {
    hide Scan, Authorized;
    HiddenDataScans(cfg, ctx, def.objectType, def.filters, archived, db, other);
    HiddenDataScans(cfg, ctx, def.objectType, def.filters, false, db, other);
  }

  lemma HiddenDataScans(
    cfg: Config, ctx: AuthContext, objectType: string, filters: seq<FieldFilter>, archived: bool, db: Db, other: Db)
    requires LoadType(cfg, ctx.tenantId, objectType).Some?
    requires StoresAlike(cfg, ctx, LoadType(cfg, ctx.tenantId, objectType).value, objectType, filters, db, other)
    ensures var otype := LoadType(cfg, ctx.tenantId, objectType).value;
            Scan(cfg, db, ctx, otype, objectType, filters, archived)
            == Scan(cfg, other, ctx, otype, objectType, filters, archived)
  {
    hide Alike, Selected, Shown, Scan;
    var otype := LoadType(cfg, ctx.tenantId, objectType).value;
    forall id | id in db.records && IsCandidate(db.records[id], ctx.tenantId, objectType, archived)
      ensures SameView(cfg, ctx, otype, objectType, ScanFilter(filters, archived), true, db.records[id],
                       other.records[id])
    {
      AlikeShown(cfg, ctx, otype, objectType, filters, archived, db.records[id], other.records[id]);
    }
    ScansAgree(cfg, ctx, otype, objectType, filters, archived, true, db, other);
    SameRows(cfg, Scan(cfg, db, ctx, otype, objectType, filters, archived),
             Scan(cfg, other, ctx, otype, objectType, filters, archived));
  }

  // ---- one hidden field, exactly -------------------------------------------------------------------------

  /** The grants that apply when the caller reads the record. */
  function Applying(cfg: Config, ctx: AuthContext, r: Record): seq<Grant> {
    Applicable(cfg.advancedPermissions, EffectiveGrants(cfg.roles, ctx), ctx, Read, ObjectResource(r.objectType),
               Some(r))
  }

  /** The two versions of a record differ at most in the field, which the caller sees in neither. */
  ghost predicate Concealed(cfg: Config, ctx: AuthContext, otype: ObjectType, key: string, r: Record, s: Record) {
    && r.(data := s.data) == s && (forall k | k != key :: Lookup(r.data, k) == Lookup(s.data, k))
    && !FieldPermitted(Applying(cfg, ctx, r), otype, key) && !FieldPermitted(Applying(cfg, ctx, s), otype, key)
  }

  predicate MayRead(cfg: Config, ctx: AuthContext, r: Record) {
    Authorized(cfg, ctx, Read, ObjectResource(r.objectType), Some(r))
  }

  /** Can a report tell the value from an absent one? A number counts and a key groups. */
  predicate Reportable(cfg: Config, v: Value) {
    NumVal(v).Some? || ValueKey(v, cfg.render) != NO_KEY
  }

  /** The access decisions on the two versions agree: whether the record may be read and, if so,
      which other fields the caller sees; for reports, among the fields a report can tell. */
  ghost predicate SameAccess(
    cfg: Config, ctx: AuthContext, otype: ObjectType, key: string, exact: bool, r: Record, s: Record)
  {
    && MayRead(cfg, ctx, r) == MayRead(cfg, ctx, s)
    && (MayRead(cfg, ctx, r) ==>
          forall k | k in r.data && k != key && (exact || Reportable(cfg, r.data[k])) ::
            FieldPermitted(Applying(cfg, ctx, r), otype, k) == FieldPermitted(Applying(cfg, ctx, s), otype, k))
  }

  predicate IsOfType(ctx: AuthContext, objectType: string, r: Record) {
    r.tenantId == ctx.tenantId && r.objectType == objectType
  }

  /** No read-grant test can turn on the hidden field: on records of the type, no access decision
      changes with it. For reports only unarchived records matter. */
  ghost predicate AccessIgnores(
    cfg: Config, ctx: AuthContext, otype: ObjectType, objectType: string, key: string, exact: bool)
  {
    forall r, s | IsOfType(ctx, objectType, r) && (exact || r.lifecycle.Active?)
                  && Concealed(cfg, ctx, otype, key, r, s) ::
      SameAccess(cfg, ctx, otype, key, exact, r, s)
  }

  /** Two stores with the same rows, whose records of the type differ at most in the field, hidden
      from the caller in both; other records may differ in any data. */
  ghost predicate StoresConceal(
    cfg: Config, ctx: AuthContext, otype: ObjectType, objectType: string, key: string, db: Db, other: Db)
  {
    && db.order == other.order && db.records.Keys == other.records.Keys
    && forall id | id in db.records ::
         var r, s := db.records[id], other.records[id];
         r.(data := s.data) == s
         && (IsOfType(ctx, objectType, r) ==> Concealed(cfg, ctx, otype, key, r, s))
  }

  lemma ConcealedFilters(
    cfg: Config, ctx: AuthContext, otype: ObjectType, key: string, filters: seq<FieldFilter>, r: Record, s: Record)
    requires Concealed(cfg, ctx, otype, key, r, s) && !FilterReads(filters, key)
    ensures MatchesFilters(r, filters) == MatchesFilters(s, filters)
  {
    hide FieldPermitted, Applying;
    forall f | f in filters ensures MatchesFilter(r, f) == MatchesFilter(s, f) {
      assert f.field != key;
      assert Lookup(r.data, f.field) == Lookup(s.data, f.field);
    }
  }

  lemma SameProjection(otype: ObjectType, key: string, r: Record, s: Record, seen: seq<Grant>, other: seq<Grant>)
    requires r.(data := s.data) == s && forall k | k != key :: Lookup(r.data, k) == Lookup(s.data, k)
    requires !FieldPermitted(seen, otype, key) && !FieldPermitted(other, otype, key)
    requires forall k | k in r.data && k != key :: FieldPermitted(seen, otype, k) == FieldPermitted(other, otype, k)
    ensures Project(r, seen, otype) == Project(s, other, otype)
  {
    hide FieldPermitted;
    var a, b := Project(r, seen, otype).data, Project(s, other, otype).data;
    forall k ensures Lookup(a, k) == Lookup(b, k) {
      if k != key {
        assert Lookup(r.data, k) == Lookup(s.data, k);
      }
    }
    SameData(a, b);
  }

  lemma EqualProjection(
    cfg: Config, otype: ObjectType, key: string, r: Record, s: Record, seen: seq<Grant>, other: seq<Grant>)
    requires r.(data := s.data) == s && forall k | k != key :: Lookup(r.data, k) == Lookup(s.data, k)
    requires !FieldPermitted(seen, otype, key) && !FieldPermitted(other, otype, key)
    requires forall k | k in r.data && k != key && Reportable(cfg, r.data[k]) ::
               FieldPermitted(seen, otype, k) == FieldPermitted(other, otype, k)
    ensures ReportEqual(cfg, Project(r, seen, otype), Project(s, other, otype))
  {
    hide FieldPermitted;
    var a, b := Project(r, seen, otype), Project(s, other, otype);
    forall f
      ensures Contribution(a, Some(f)) == Contribution(b, Some(f))
      ensures GroupKey(a, f, cfg.render) == GroupKey(b, f, cfg.render)
    {
      if f != key {
        assert Lookup(r.data, f) == Lookup(s.data, f);
      }
    }
  }

  lemma SameAccessSameView(
    cfg: Config, ctx: AuthContext, otype: ObjectType, objectType: string, key: string, filters: seq<FieldFilter>,
    archived: bool, exact: bool, r: Record, s: Record)
    requires !Trusted(ctx) && IsOfType(ctx, objectType, r) && !FilterReads(filters, key)
    requires Concealed(cfg, ctx, otype, key, r, s) && SameAccess(cfg, ctx, otype, key, exact, r, s)
    ensures SameView(cfg, ctx, otype, objectType, ScanFilter(filters, archived), exact, r, s)
  {
    hide FieldPermitted, GrantApplies, ReportEqual, Reportable, MatchesFilters, FilterReads;
    ConcealedFilters(cfg, ctx, otype, key, filters, r, s);
    if MayRead(cfg, ctx, r) {
      if exact {
        SameProjection(otype, key, r, s, Applying(cfg, ctx, r), Applying(cfg, ctx, s));
      } else {
        EqualProjection(cfg, otype, key, r, s, Applying(cfg, ctx, r), Applying(cfg, ctx, s));
      }
    }
  }

  lemma ConcealedStoresAgree(
    cfg: Config, ctx: AuthContext, otype: ObjectType, objectType: string, key: string, filters: seq<FieldFilter>,
    archived: bool, exact: bool, db: Db, other: Db)
    requires !Trusted(ctx) && AccessIgnores(cfg, ctx, otype, objectType, key, exact) && (archived ==> exact)
    requires !FilterReads(filters, key) && StoresConceal(cfg, ctx, otype, objectType, key, db, other)
    ensures RowsSame(cfg, exact, Scan(cfg, db, ctx, otype, objectType, filters, archived),
                     Scan(cfg, other, ctx, otype, objectType, filters, archived))
  {
    hide Concealed, SameAccess, SameView, Scan, RowsSame, FilterReads;
    forall id | id in db.records && IsCandidate(db.records[id], ctx.tenantId, objectType, archived)
      ensures SameView(cfg, ctx, otype, objectType, ScanFilter(filters, archived), exact, db.records[id],
                       other.records[id])
    {
      var r, s := db.records[id], other.records[id];
      assert SameAccess(cfg, ctx, otype, key, exact, r, s);
      SameAccessSameView(cfg, ctx, otype, objectType, key, filters, archived, exact, r, s);
    }
    ScansAgree(cfg, ctx, otype, objectType, filters, archived, exact, db, other);
  }

  // ---- what one record shows -----------------------------------------------------------------------------

  /** A store that holds one record. */
  function OneRecord(r: Record): Db {
    EMPTY_DB.(records := map[r.id := r], order := [RowKey(r.tenantId, r.id)])
  }

  lemma OneCandidate(r: Record, tenantId: string, archived: bool)
    requires r.tenantId == tenantId && (archived || r.lifecycle.Active?)
    ensures Candidates(OneRecord(r), tenantId, r.objectType, archived) == [r]
  {
    var order := [RowKey(tenantId, r.id)];
    assert order[..0] == [] && [r][..0] == [];
    assert MatchingRows(order, map[r.id := r], tenantId, r.objectType, archived) == [r];
    assert Sorted(NewestFirst, [r]) == [r];
  }

  lemma ScanIsTheView(
    cfg: Config, db: Db, ctx: AuthContext, otype: ObjectType, objectType: string, filters: seq<FieldFilter>,
    archived: bool)
    ensures Scan(cfg, db, ctx, otype, objectType, filters, archived)
            == View(cfg, ctx, otype, objectType, ScanFilter(filters, archived),
                    Candidates(db, ctx.tenantId, objectType, archived))
  {
  }

  /** A scan of one candidate: its shown form if it may be read and meets the filters. */
  lemma ScanOverOne(cfg: Config, ctx: AuthContext, r: Record, filters: seq<FieldFilter>, archived: bool, now: int)
    requires r.tenantId == ctx.tenantId && (archived || r.lifecycle.Active?)
    requires LoadType(cfg, ctx.tenantId, r.objectType).Some?
    requires Authorized(cfg, ctx, Search, ObjectResource(r.objectType), None)
    ensures S.ScanRecords(cfg, OneRecord(r), ctx, r.objectType, filters, archived, now).reply
            == Ok(if MayRead(cfg, ctx, r) && MatchesFilters(r, filters)
                  then [Shown(cfg, ctx, EffectiveGrants(cfg.roles, ctx),
                              LoadType(cfg, ctx.tenantId, r.objectType).value, r.objectType, r)]
                  else [])
  {
    hide GrantApplies, MatchesFilters, Shown, Candidates, EffectiveGrants, View, Scan;
    var otype, filter := LoadType(cfg, ctx.tenantId, r.objectType).value, ScanFilter(filters, archived);
    OneCandidate(r, ctx.tenantId, archived);
    ViewOfLast(cfg, ctx, otype, r.objectType, filter, [r]);
    assert [r][..0] == [];
    NothingToView(cfg, ctx, otype, r.objectType, filter);
    ScanIsTheView(cfg, OneRecord(r), ctx, otype, r.objectType, filters, archived);
    assert Selected(cfg, ctx, EffectiveGrants(cfg.roles, ctx), r.objectType, filter, r)
      <==> MayRead(cfg, ctx, r) && MatchesFilters(r, filters);
    assert View(cfg, ctx, otype, r.objectType, filter, [r])
        == if MayRead(cfg, ctx, r) && MatchesFilters(r, filters)
           then [Shown(cfg, ctx, EffectiveGrants(cfg.roles, ctx), otype, r.objectType, r)]
           else [];
  }

  /** The report over one shown record. */
  lemma ReportOverOne(r: Record, def: ReportDef, render: Value -> string)
    ensures Report([r], def, render)
            == if def.groupBy.Some?
               then
                 var key := GroupKey(r, def.groupBy.value, render);
                 ReportResult(None, [GroupBucket(key, Compute([r], def.op, def.field), 1)], 1)
               else ReportResult(Some(Compute([r], def.op, def.field)), [], 1)
  {
    hide Compute, GroupKey;
    if def.groupBy.Some? {
      var key := GroupKey(r, def.groupBy.value, render);
      assert [r][..0] == [];
      assert Group([r], def.groupBy.value, render) == AddTo([], key, r) == [Bucket(key, [r])];
    }
  }

  lemma LeastOfOneNumber(x: real)
    ensures MinOf([x]) == Fin(x)
  {
    assert [x][..0] == [];
  }

  lemma LeastOfOne(r: Record, field: string)
    ensures Compute([r], Min, Some(field))
            == if Contribution(r, Some(field)).Some? then Fin(Contribution(r, Some(field)).value) else PosInf
  {
    hide Contribution;
    var c := Contribution(r, Some(field));
    assert [r][..0] == [];
    assert Numbers([r], Some(field)) == if c.Some? then [c.value] else [];
    if c.Some? {
      LeastOfOneNumber(c.value);
    }
  }

  /** The report that tells a shown value of a field from none: its least value if it is a number,
      else its group. */
  function TellingReport(cfg: Config, objectType: string, field: string, v: Value): ReportDef {
    if NumVal(v).Some? then ReportDef(objectType, Min, Some(field), [], None)
    else ReportDef(objectType, Count, None, [], Some(field))
  }

  lemma ReportsTell(cfg: Config, objectType: string, field: string, a: Record, b: Record)
    requires field in a.data && field !in b.data && Reportable(cfg, a.data[field])
    ensures var def := TellingReport(cfg, objectType, field, a.data[field]);
            Report([a], def, cfg.render) != Report([b], def, cfg.render)
  {
    hide Compute;
    var def := TellingReport(cfg, objectType, field, a.data[field]);
    ReportOverOne(a, def, cfg.render);
    ReportOverOne(b, def, cfg.render);
    if NumVal(a.data[field]).Some? {
      LeastOfOne(a, field);
      LeastOfOne(b, field);
    }
  }

  // ---- the exact conditions ---------------------------------------------------------------------------------

  /** May the caller scan the type, and is every field subject to its grants? */
  predicate MayScan(cfg: Config, ctx: AuthContext, objectType: string) {
    !Trusted(ctx) && LoadType(cfg, ctx.tenantId, objectType).Some?
    && Authorized(cfg, ctx, Search, ObjectResource(objectType), None)
  }

  ghost predicate SameScan(
    cfg: Config, ctx: AuthContext, objectType: string, filters: seq<FieldFilter>, archived: bool, db: Db, other: Db,
    now: int)
  {
    S.ScanRecords(cfg, db, ctx, objectType, filters, archived, now).reply
    == S.ScanRecords(cfg, other, ctx, objectType, filters, archived, now).reply
  }

  ghost predicate SameReport(cfg: Config, ctx: AuthContext, def: ReportDef, db: Db, other: Db, now: int) {
    S.RunReportDef(cfg, db, ctx, def, now).reply == S.RunReportDef(cfg, other, ctx, def, now).reply
  }

  /** Scans, with whatever filters on other fields, never depend on the hidden field. */
  ghost predicate ScansIgnore(cfg: Config, ctx: AuthContext, objectType: string, key: string, now: int)
    requires MayScan(cfg, ctx, objectType)
  {
    forall filters, archived, db, other |
      !FilterReads(filters, key)
      && StoresConceal(cfg, ctx, LoadType(cfg, ctx.tenantId, objectType).value, objectType, key, db, other) ::
      SameScan(cfg, ctx, objectType, filters, archived, db, other, now)
  }

  /** Reports, with whatever filters on other fields, never depend on the hidden field. */
  ghost predicate ReportsIgnore(cfg: Config, ctx: AuthContext, objectType: string, key: string, now: int)
    requires MayScan(cfg, ctx, objectType)
  {
    forall def: ReportDef, db, other |
      def.objectType == objectType && !FilterReads(def.filters, key)
      && StoresConceal(cfg, ctx, LoadType(cfg, ctx.tenantId, objectType).value, objectType, key, db, other) ::
      SameReport(cfg, ctx, def, db, other, now)
  }

  lemma OneRecordConceals(cfg: Config, ctx: AuthContext, otype: ObjectType, key: string, r: Record, s: Record)
    requires Concealed(cfg, ctx, otype, key, r, s)
    ensures StoresConceal(cfg, ctx, otype, r.objectType, key, OneRecord(r), OneRecord(s))
  {
    hide FieldPermitted, Applying;
  }

  /** A concealed pair on which access differs makes some scan differ. */
  lemma AccessShowsInScan(cfg: Config, ctx: AuthContext, key: string, r: Record, s: Record, now: int)
    requires MayScan(cfg, ctx, r.objectType) && r.tenantId == ctx.tenantId
    requires var otype := LoadType(cfg, ctx.tenantId, r.objectType).value;
             Concealed(cfg, ctx, otype, key, r, s) && !SameAccess(cfg, ctx, otype, key, true, r, s)
    ensures !SameScan(cfg, ctx, r.objectType, [], true, OneRecord(r), OneRecord(s), now)
  {
    hide GrantApplies, Concealed, FieldPermitted, Applying, Applicable, S.ScanRecords, Reportable;
    var otype := LoadType(cfg, ctx.tenantId, r.objectType).value;
    assert r.(data := s.data) == s && forall k | k != key :: Lookup(r.data, k) == Lookup(s.data, k) by {
      ConcealedTwins(cfg, ctx, otype, key, r, s);
    }
    ScanOverOne(cfg, ctx, r, [], true, now);
    ScanOverOne(cfg, ctx, s, [], true, now);
    if MayRead(cfg, ctx, r) && MayRead(cfg, ctx, s) {
      var k :| k in r.data && k != key
               && FieldPermitted(Applying(cfg, ctx, r), otype, k) != FieldPermitted(Applying(cfg, ctx, s), otype, k);
      assert Lookup(r.data, k) == Lookup(s.data, k);
      ShownHas(cfg, ctx, otype, r, k);
      ShownHas(cfg, ctx, otype, s, k);
    }
  }

  lemma ConcealedTwins(cfg: Config, ctx: AuthContext, otype: ObjectType, key: string, r: Record, s: Record)
    requires Concealed(cfg, ctx, otype, key, r, s)
    ensures r.(data := s.data) == s && forall k | k != key :: Lookup(r.data, k) == Lookup(s.data, k)
  {
  }

  /** An untrusted caller's shown record has a field exactly when the record has it and the grants
      that apply permit it, and then with its value. */
  lemma ShownHas(cfg: Config, ctx: AuthContext, otype: ObjectType, r: Record, k: string)
    requires !Trusted(ctx)
    ensures var shown := Shown(cfg, ctx, EffectiveGrants(cfg.roles, ctx), otype, r.objectType, r);
            && (k in shown.data <==> k in r.data && FieldPermitted(Applying(cfg, ctx, r), otype, k))
            && (k in shown.data ==> shown.data[k] == r.data[k])
  {
    hide GrantApplies, FieldPermitted;
  }

  lemma AccessShowsInReport(cfg: Config, ctx: AuthContext, key: string, r: Record, s: Record, now: int)
    returns (def: ReportDef)
    requires MayScan(cfg, ctx, r.objectType) && r.tenantId == ctx.tenantId && r.lifecycle.Active?
    requires var otype := LoadType(cfg, ctx.tenantId, r.objectType).value;
             Concealed(cfg, ctx, otype, key, r, s) && !SameAccess(cfg, ctx, otype, key, false, r, s)
    ensures def.objectType == r.objectType && def.filters == []
    ensures !SameReport(cfg, ctx, def, OneRecord(r), OneRecord(s), now)
  {
    hide GrantApplies, Concealed, FieldPermitted, Applying, Applicable, S.ScanRecords, Reportable, Report, Shown;
    var otype, grants := LoadType(cfg, ctx.tenantId, r.objectType).value, EffectiveGrants(cfg.roles, ctx);
    ConcealedTwins(cfg, ctx, otype, key, r, s);
    ScanOverOne(cfg, ctx, r, [], false, now);
    ScanOverOne(cfg, ctx, s, [], false, now);
    def := ReportDef(r.objectType, Count, None, [], None);
    if MayRead(cfg, ctx, r) == MayRead(cfg, ctx, s) {
      var k :| k in r.data && k != key && Reportable(cfg, r.data[k])
               && FieldPermitted(Applying(cfg, ctx, r), otype, k) != FieldPermitted(Applying(cfg, ctx, s), otype, k);
      assert Lookup(r.data, k) == Lookup(s.data, k);
      ShownHas(cfg, ctx, otype, r, k);
      ShownHas(cfg, ctx, otype, s, k);
      def := TellingReport(cfg, r.objectType, k, r.data[k]);
      var a, b := Shown(cfg, ctx, grants, otype, r.objectType, r), Shown(cfg, ctx, grants, otype, s.objectType, s);
      if k in a.data {
        ReportsTell(cfg, r.objectType, k, a, b);
      } else {
        ReportsTell(cfg, r.objectType, k, b, a);
      }
    } else {
      CountsTell(def, cfg.render, Shown(cfg, ctx, grants, otype, r.objectType, r));
      CountsTell(def, cfg.render, Shown(cfg, ctx, grants, otype, s.objectType, s));
    }
  }

  lemma CountsTell(def: ReportDef, render: Value -> string, r: Record)
    ensures Report([r], def, render).sampleSize == 1 && Report([], def, render).sampleSize == 0
  {
  }

  /** A scan of a type, by a caller whose fields are subject to its grants, is independent of a
      hidden field exactly when no access decision on the type's records turns on it: neither
      whether a record may be read, nor which of its other fields are seen. */
  lemma ScansIgnoreExactlyWhenAccessDoes(cfg: Config, ctx: AuthContext, objectType: string, key: string, now: int)
    requires MayScan(cfg, ctx, objectType)
    ensures ScansIgnore(cfg, ctx, objectType, key, now)
            <==> AccessIgnores(cfg, ctx, LoadType(cfg, ctx.tenantId, objectType).value, objectType, key, true)
  {
    hide Concealed, SameAccess, SameScan, Authorized, StoresConceal, FilterReads;
    var otype := LoadType(cfg, ctx.tenantId, objectType).value;
    if AccessIgnores(cfg, ctx, otype, objectType, key, true) {
      forall filters, archived, db, other |
        !FilterReads(filters, key) && StoresConceal(cfg, ctx, otype, objectType, key, db, other)
        ensures SameScan(cfg, ctx, objectType, filters, archived, db, other, now)
      {
        ConcealedScansAgree(cfg, ctx, objectType, key, filters, archived, db, other, now);
      }
    }
    if !AccessIgnores(cfg, ctx, otype, objectType, key, true) {
      var r, s :| IsOfType(ctx, objectType, r) && Concealed(cfg, ctx, otype, key, r, s)
                  && !SameAccess(cfg, ctx, otype, key, true, r, s);
      OneRecordConceals(cfg, ctx, otype, key, r, s);
      AccessShowsInScan(cfg, ctx, key, r, s, now);
      NoFilterReads(key);
    }
  }

  lemma NoFilterReads(key: string)
    ensures !FilterReads([], key)
  {
  }

  lemma ConcealedScansAgree(
    cfg: Config, ctx: AuthContext, objectType: string, key: string, filters: seq<FieldFilter>, archived: bool, db: Db,
    other: Db, now: int)
    requires MayScan(cfg, ctx, objectType) && !FilterReads(filters, key)
    requires var otype := LoadType(cfg, ctx.tenantId, objectType).value;
             AccessIgnores(cfg, ctx, otype, objectType, key, true)
             && StoresConceal(cfg, ctx, otype, objectType, key, db, other)
    ensures SameScan(cfg, ctx, objectType, filters, archived, db, other, now)
  {
    hide AccessIgnores, StoresConceal, Scan, Authorized, FilterReads;
    var otype := LoadType(cfg, ctx.tenantId, objectType).value;
    ConcealedStoresAgree(cfg, ctx, otype, objectType, key, filters, archived, true, db, other);
    SameRows(cfg, Scan(cfg, db, ctx, otype, objectType, filters, archived),
             Scan(cfg, other, ctx, otype, objectType, filters, archived));
  }

  lemma ConcealedReportsAgree(
    cfg: Config, ctx: AuthContext, key: string, def: ReportDef, db: Db, other: Db, now: int)
    requires MayScan(cfg, ctx, def.objectType) && !FilterReads(def.filters, key)
    requires var otype := LoadType(cfg, ctx.tenantId, def.objectType).value;
             AccessIgnores(cfg, ctx, otype, def.objectType, key, false)
             && StoresConceal(cfg, ctx, otype, def.objectType, key, db, other)
    ensures SameReport(cfg, ctx, def, db, other, now)
  {
    hide AccessIgnores, StoresConceal, Scan, Authorized, FilterReads, Report, RowsSame;
    var otype := LoadType(cfg, ctx.tenantId, def.objectType).value;
    ConcealedStoresAgree(cfg, ctx, otype, def.objectType, key, def.filters, false, false, db, other);
    ReportsAgree(cfg, Scan(cfg, db, ctx, otype, def.objectType, def.filters, false),
                 Scan(cfg, other, ctx, otype, def.objectType, def.filters, false), def);
  }

  /** Reports over a type are independent of a hidden field exactly when no access decision a report
      can tell turns on it: whether an unarchived record may be read, or whether one of its other
      fields is seen that holds a number or a text to group by. */
  lemma ReportsIgnoreExactlyWhenAccessDoes(cfg: Config, ctx: AuthContext, objectType: string, key: string, now: int)
    requires MayScan(cfg, ctx, objectType)
    ensures ReportsIgnore(cfg, ctx, objectType, key, now)
            <==> AccessIgnores(cfg, ctx, LoadType(cfg, ctx.tenantId, objectType).value, objectType, key, false)
  {
    hide Concealed, SameAccess, SameReport, Authorized, StoresConceal, FilterReads;
    var otype := LoadType(cfg, ctx.tenantId, objectType).value;
    if AccessIgnores(cfg, ctx, otype, objectType, key, false) {
      forall def: ReportDef, db, other |
        def.objectType == objectType && !FilterReads(def.filters, key)
        && StoresConceal(cfg, ctx, otype, objectType, key, db, other)
        ensures SameReport(cfg, ctx, def, db, other, now)
      {
        ConcealedReportsAgree(cfg, ctx, key, def, db, other, now);
      }
    }
    if !AccessIgnores(cfg, ctx, otype, objectType, key, false) {
      var r, s :| IsOfType(ctx, objectType, r) && r.lifecycle.Active? && Concealed(cfg, ctx, otype, key, r, s)
                  && !SameAccess(cfg, ctx, otype, key, false, r, s);
      OneRecordConceals(cfg, ctx, otype, key, r, s);
      var def := AccessShowsInReport(cfg, ctx, key, r, s, now);
      NoFilterReads(key);
    }
  }

  // ---- which grants look at a field ---------------------------------------------------------------------------

  /** Does a grant that could authorize reading the type test the field: by the owner scope, or by a
      condition? */
  predicate Tests(cfg: Config, g: Grant, objectType: string, key: string) {
    && ActionCovered(g.action, Read) && MatchesResource(g.resource, ObjectResource(objectType))
    && ((g.scope.Own? && key in OWNER_FIELDS)
        || (cfg.advancedPermissions
            && exists c | c in g.conditions :: NamesRecordField(c.field) && RecordField(c.field) == key))
  }

  lemma UntestedGrant(cfg: Config, ctx: AuthContext, g: Grant, objectType: string, key: string, r: Record, s: Record)
    requires !Tests(cfg, g, objectType, key)
    requires r.(data := s.data) == s && forall k | k != key :: Lookup(r.data, k) == Lookup(s.data, k)
    ensures GrantApplies(cfg.advancedPermissions, g, ctx, Read, ObjectResource(objectType), Some(r))
            == GrantApplies(cfg.advancedPermissions, g, ctx, Read, ObjectResource(objectType), Some(s))
  {
    if ActionCovered(g.action, Read) && MatchesResource(g.resource, ObjectResource(objectType)) {
      if g.scope.Own? {
        UntestedOwner(ctx, key, r, s);
      }
      if cfg.advancedPermissions {
        forall c | c in g.conditions ensures ConditionHolds(c, ctx, Some(r)) == ConditionHolds(c, ctx, Some(s)) {
          UntestedCondition(ctx, c, key, r, s);
        }
      }
    }
  }

  lemma UntestedCondition(ctx: AuthContext, c: Condition, key: string, r: Record, s: Record)
    requires !(NamesRecordField(c.field) && RecordField(c.field) == key)
    requires r.(data := s.data) == s && forall k | k != key :: Lookup(r.data, k) == Lookup(s.data, k)
    ensures ConditionHolds(c, ctx, Some(r)) == ConditionHolds(c, ctx, Some(s))
  {
    if NamesRecordField(c.field) {
      assert Lookup(r.data, RecordField(c.field)) == Lookup(s.data, RecordField(c.field));
    }
  }

  lemma UntestedOwner(ctx: AuthContext, key: string, r: Record, s: Record)
    requires key !in OWNER_FIELDS
    requires r.(data := s.data) == s && forall k | k != key :: Lookup(r.data, k) == Lookup(s.data, k)
    ensures OwnedBy(r, ctx.actorId) == OwnedBy(s, ctx.actorId)
  {
    forall k | k in OWNER_FIELDS
      ensures (k in r.data && r.data[k] == Str(ctx.actorId)) == (k in s.data && s.data[k] == Str(ctx.actorId))
    {
      assert Lookup(r.data, k) == Lookup(s.data, k);
    }
  }

  lemma {:induction false} UntestedApplicable(
    cfg: Config, ctx: AuthContext, grants: seq<Grant>, objectType: string, key: string, r: Record, s: Record)
    requires forall g | g in grants :: !Tests(cfg, g, objectType, key)
    requires r.(data := s.data) == s && forall k | k != key :: Lookup(r.data, k) == Lookup(s.data, k)
    ensures Applicable(cfg.advancedPermissions, grants, ctx, Read, ObjectResource(objectType), Some(r))
            == Applicable(cfg.advancedPermissions, grants, ctx, Read, ObjectResource(objectType), Some(s))
  {
    hide Tests, GrantApplies;
    if grants != [] {
      UntestedApplicable(cfg, ctx, grants[..|grants| - 1], objectType, key, r, s);
      UntestedGrant(cfg, ctx, grants[|grants| - 1], objectType, key, r, s);
    }
  }

  /** A field that no grant for reading the type tests changes no access decision, so neither scans
      nor reports depend on it. */
  lemma UntestedFieldsAreIgnored(cfg: Config, ctx: AuthContext, objectType: string, key: string, now: int)
    requires MayScan(cfg, ctx, objectType)
    requires forall g | g in EffectiveGrants(cfg.roles, ctx) :: !Tests(cfg, g, objectType, key)
    ensures ScansIgnore(cfg, ctx, objectType, key, now) && ReportsIgnore(cfg, ctx, objectType, key, now)
  {
    hide Concealed, ScansIgnore, ReportsIgnore, Tests, MayScan, SameAccess;
    var otype := TypeOf(cfg, ctx, objectType);
    forall r, s, exact | IsOfType(ctx, objectType, r) && Concealed(cfg, ctx, otype, key, r, s)
      ensures SameAccess(cfg, ctx, otype, key, exact, r, s)
    {
      UntestedAccess(cfg, ctx, otype, objectType, key, exact, r, s);
    }
    ScansIgnoreExactlyWhenAccessDoes(cfg, ctx, objectType, key, now);
    ReportsIgnoreExactlyWhenAccessDoes(cfg, ctx, objectType, key, now);
  }

  function TypeOf(cfg: Config, ctx: AuthContext, objectType: string): ObjectType
    requires MayScan(cfg, ctx, objectType)
  {
    LoadType(cfg, ctx.tenantId, objectType).value
  }

  lemma UntestedAccess(
    cfg: Config, ctx: AuthContext, otype: ObjectType, objectType: string, key: string, exact: bool, r: Record,
    s: Record)
    requires forall g | g in EffectiveGrants(cfg.roles, ctx) :: !Tests(cfg, g, objectType, key)
    requires IsOfType(ctx, objectType, r) && Concealed(cfg, ctx, otype, key, r, s)
    ensures SameAccess(cfg, ctx, otype, key, exact, r, s)
  {
    hide Tests, GrantApplies, FieldPermitted, Reportable;
    var grants := EffectiveGrants(cfg.roles, ctx);
    UntestedApplicable(cfg, ctx, grants, objectType, key, r, s);
    forall g | g in grants
      ensures GrantApplies(cfg.advancedPermissions, g, ctx, Read, ObjectResource(objectType), Some(r))
              == GrantApplies(cfg.advancedPermissions, g, ctx, Read, ObjectResource(objectType), Some(s))
    {
      UntestedGrant(cfg, ctx, g, objectType, key, r, s);
    }
  }

  // ---- grants that do look at it --------------------------------------------------------------------------------

  function With(r: Record, key: string, v: Value): Record {
    r.(data := r.data[key := v])
  }

  /** The key is restricted, and no grant's field rule permits it. */
  predicate Withheld(cfg: Config, ctx: AuthContext, otype: ObjectType, key: string) {
    Restricted(otype.fields, key)
    && forall g | g in EffectiveGrants(cfg.roles, ctx) :: !(g.fields.Some? && RulePermits(g.fields.value, key))
  }

  lemma WithheldIsConcealed(
    cfg: Config, ctx: AuthContext, otype: ObjectType, key: string, r: Record, v: Value, w: Value)
    requires Withheld(cfg, ctx, otype, key)
    ensures Concealed(cfg, ctx, otype, key, With(r, key, v), With(r, key, w))
  {
    hide GrantApplies, RulePermits;
  }

  /** When the grants for reading the type decide differently on two values of a withheld field, the
      plain count of a one-record store is one with the first value and zero with the second. */
  lemma CountsShowAccess(cfg: Config, ctx: AuthContext, r: Record, key: string, v: Value, w: Value, now: int)
    requires MayScan(cfg, ctx, r.objectType) && r.tenantId == ctx.tenantId && r.lifecycle.Active?
    requires MayRead(cfg, ctx, With(r, key, v)) && !MayRead(cfg, ctx, With(r, key, w))
    ensures var def := ReportDef(r.objectType, Count, None, [], None);
            && S.RunReportDef(cfg, OneRecord(With(r, key, v)), ctx, def, now).reply
               == Ok(ReportResult(Some(Fin(1.0)), [], 1))
            && S.RunReportDef(cfg, OneRecord(With(r, key, w)), ctx, def, now).reply
               == Ok(ReportResult(Some(Fin(0.0)), [], 0))
  {
    hide GrantApplies, S.ScanRecords, Shown;
    ScanOverOne(cfg, ctx, With(r, key, v), [], false, now);
    ScanOverOne(cfg, ctx, With(r, key, w), [], false, now);
  }

  /** Owner fields show: for a caller whose grants for reading the type are all limited to own
      records, without conditions, a withheld owner field is counted by: naming the caller in it
      makes someone else's record count, naming another makes it not. */
  lemma OwnScopesShowOwnerFields(
    cfg: Config, ctx: AuthContext, r: Record, key: string, someoneElse: string, now: int)
    requires MayScan(cfg, ctx, r.objectType) && r.tenantId == ctx.tenantId && r.lifecycle.Active?
    requires Withheld(cfg, ctx, LoadType(cfg, ctx.tenantId, r.objectType).value, key) && key in OWNER_FIELDS
    requires exists g :: g in EffectiveGrants(cfg.roles, ctx) && Reads(g, r.objectType)
    requires forall g | g in EffectiveGrants(cfg.roles, ctx) && Reads(g, r.objectType) ::
               g.scope.Own? && g.conditions == []
    requires !OwnedBy(r.(data := r.data - {key}), ctx.actorId) && someoneElse != ctx.actorId
    ensures !ReportsIgnore(cfg, ctx, r.objectType, key, now)
    ensures var def := ReportDef(r.objectType, Count, None, [], None);
            var mine, theirs := With(r, key, Str(ctx.actorId)), With(r, key, Str(someoneElse));
            && S.RunReportDef(cfg, OneRecord(mine), ctx, def, now).reply == Ok(ReportResult(Some(Fin(1.0)), [], 1))
            && S.RunReportDef(cfg, OneRecord(theirs), ctx, def, now).reply == Ok(ReportResult(Some(Fin(0.0)), [], 0))
  {
    var mine, theirs := Str(ctx.actorId), Str(someoneElse);
    OwnershipTurns(ctx, r, key, someoneElse);
    OwnScopesDecide(cfg, ctx, With(r, key, mine));
    OwnScopesDecide(cfg, ctx, With(r, key, theirs));
    ShownByCount(cfg, ctx, r, key, mine, theirs, now);
  }

  predicate Reads(g: Grant, objectType: string) {
    ActionCovered(g.action, Read) && MatchesResource(g.resource, ObjectResource(objectType))
  }

  lemma OwnershipTurns(ctx: AuthContext, r: Record, key: string, someoneElse: string)
    requires key in OWNER_FIELDS && someoneElse != ctx.actorId
    requires !OwnedBy(r.(data := r.data - {key}), ctx.actorId)
    ensures OwnedBy(With(r, key, Str(ctx.actorId)), ctx.actorId)
    ensures !OwnedBy(With(r, key, Str(someoneElse)), ctx.actorId)
  {
    var bare, theirs := r.(data := r.data - {key}), With(r, key, Str(someoneElse));
    forall k | k in OWNER_FIELDS ensures !(k in theirs.data && theirs.data[k] == Str(ctx.actorId)) {
      assert !(k in bare.data && bare.data[k] == Str(ctx.actorId));
    }
  }

  lemma OwnScopesDecide(cfg: Config, ctx: AuthContext, r: Record)
    requires !Trusted(ctx) && exists g :: g in EffectiveGrants(cfg.roles, ctx) && Reads(g, r.objectType)
    requires forall g | g in EffectiveGrants(cfg.roles, ctx) && Reads(g, r.objectType) ::
               g.scope.Own? && g.conditions == []
    ensures MayRead(cfg, ctx, r) <==> OwnedBy(r, ctx.actorId)
  {
    hide OwnedBy, MatchesResource;
    var grants := EffectiveGrants(cfg.roles, ctx);
    var g :| g in grants && Reads(g, r.objectType);
    assert OwnedBy(r, ctx.actorId)
      ==> GrantApplies(cfg.advancedPermissions, g, ctx, Read, ObjectResource(r.objectType), Some(r));
  }

  /** A decision that turns on a withheld field shows in the count, so reports depend on it. */
  lemma ShownByCount(cfg: Config, ctx: AuthContext, r: Record, key: string, v: Value, w: Value, now: int)
    requires MayScan(cfg, ctx, r.objectType) && r.tenantId == ctx.tenantId && r.lifecycle.Active?
    requires Withheld(cfg, ctx, LoadType(cfg, ctx.tenantId, r.objectType).value, key)
    requires MayRead(cfg, ctx, With(r, key, v)) && !MayRead(cfg, ctx, With(r, key, w))
    ensures !ReportsIgnore(cfg, ctx, r.objectType, key, now)
    ensures var def := ReportDef(r.objectType, Count, None, [], None);
            && S.RunReportDef(cfg, OneRecord(With(r, key, v)), ctx, def, now).reply
               == Ok(ReportResult(Some(Fin(1.0)), [], 1))
            && S.RunReportDef(cfg, OneRecord(With(r, key, w)), ctx, def, now).reply
               == Ok(ReportResult(Some(Fin(0.0)), [], 0))
  {
    hide ReportsIgnore, MayRead, Withheld, Concealed, S.RunReportDef;
    var otype := LoadType(cfg, ctx.tenantId, r.objectType).value;
    CountsShowAccess(cfg, ctx, r, key, v, w, now);
    WithheldIsConcealed(cfg, ctx, otype, key, r, v, w);
    assert !SameAccess(cfg, ctx, otype, key, false, With(r, key, v), With(r, key, w));
    assert !AccessIgnores(cfg, ctx, otype, r.objectType, key, false);
    ReportsIgnoreExactlyWhenAccessDoes(cfg, ctx, r.objectType, key, now);
  }

  /** Condition fields show: for a caller whose grants for reading the type all carry just one
      condition, on the withheld field, that one value meets and another does not, the count tells
      the two values apart. */
  lemma ConditionsShowTheirFields(
    cfg: Config, ctx: AuthContext, r: Record, key: string, c: Condition, v: Value, w: Value, now: int)
    requires MayScan(cfg, ctx, r.objectType) && r.tenantId == ctx.tenantId && r.lifecycle.Active?
    requires Withheld(cfg, ctx, LoadType(cfg, ctx.tenantId, r.objectType).value, key) && cfg.advancedPermissions
    requires exists g :: g in EffectiveGrants(cfg.roles, ctx) && Reads(g, r.objectType)
    requires forall g | g in EffectiveGrants(cfg.roles, ctx) && Reads(g, r.objectType) ::
               g.scope.Tenant? && g.conditions == [c]
    requires NamesRecordField(c.field) && RecordField(c.field) == key
    requires Compare(v, c.op, c.value) && !Compare(w, c.op, c.value)
    ensures !ReportsIgnore(cfg, ctx, r.objectType, key, now)
    ensures var def := ReportDef(r.objectType, Count, None, [], None);
            && S.RunReportDef(cfg, OneRecord(With(r, key, v)), ctx, def, now).reply
               == Ok(ReportResult(Some(Fin(1.0)), [], 1))
            && S.RunReportDef(cfg, OneRecord(With(r, key, w)), ctx, def, now).reply
               == Ok(ReportResult(Some(Fin(0.0)), [], 0))
  {
    ConditionDecides(cfg, ctx, With(r, key, v), c, v);
    ConditionDecides(cfg, ctx, With(r, key, w), c, w);
    ShownByCount(cfg, ctx, r, key, v, w, now);
  }

  lemma ConditionDecides(cfg: Config, ctx: AuthContext, r: Record, c: Condition, v: Value)
    requires !Trusted(ctx) && cfg.advancedPermissions
    requires exists g :: g in EffectiveGrants(cfg.roles, ctx) && Reads(g, r.objectType)
    requires forall g | g in EffectiveGrants(cfg.roles, ctx) && Reads(g, r.objectType) ::
               g.scope.Tenant? && g.conditions == [c]
    requires NamesRecordField(c.field) && Lookup(r.data, RecordField(c.field)) == Some(v)
    ensures MayRead(cfg, ctx, r) <==> Compare(v, c.op, c.value)
  {
    hide MatchesResource, Compare, NamesRecordField, RecordField;
    var grants := EffectiveGrants(cfg.roles, ctx);
    assert ConditionHolds(c, ctx, Some(r)) <==> Compare(v, c.op, c.value);
    var g :| g in grants && Reads(g, r.objectType);
    assert Compare(v, c.op, c.value)
      ==> GrantApplies(cfg.advancedPermissions, g, ctx, Read, ObjectResource(r.objectType), Some(r));
    assert forall h | h in grants && Reads(h, r.objectType) :: c in h.conditions;
  }

  // ---- filters ----------------------------------------------------------------------------------------------------

  /** Filters run before fields are hidden: for any field whatever, permitted or not, two stores that
      differ only in that field count differently once a filter names it, provided the caller may
      search the type and read the record. */
  lemma FiltersReachHiddenFields(cfg: Config, ctx: AuthContext, r: Record, key: string, v: Value, w: Value, now: int)
    requires v != w
    requires r.tenantId == ctx.tenantId && r.lifecycle.Active?
    requires LoadType(cfg, ctx.tenantId, r.objectType).Some?
    requires Authorized(cfg, ctx, Search, ObjectResource(r.objectType), None)
    requires Authorized(cfg, ctx, Read, ObjectResource(r.objectType), Some(With(r, key, v)))
    requires Authorized(cfg, ctx, Read, ObjectResource(r.objectType), Some(With(r, key, w)))
    ensures var def := ReportDef(r.objectType, Count, None, [FieldFilter(key, Eq, v)], None);
            && S.RunReportDef(cfg, OneRecord(With(r, key, v)), ctx, def, now).reply
               == Ok(ReportResult(Some(Fin(1.0)), [], 1))
            && S.RunReportDef(cfg, OneRecord(With(r, key, w)), ctx, def, now).reply
               == Ok(ReportResult(Some(Fin(0.0)), [], 0))
  {
    hide GrantApplies, S.ScanRecords, Shown;
    var f := FieldFilter(key, Eq, v);
    ScanOverOne(cfg, ctx, With(r, key, v), [f], false, now);
    ScanOverOne(cfg, ctx, With(r, key, w), [f], false, now);
    assert MatchesFilters(With(r, key, v), [f]);
    assert f in [f] && !MatchesFilter(With(r, key, w), f);
  }
}
