/** What filter clauses, searches and sorts do to lists and scans, in terms of the stored values. */
module Filtering {
  import opened Values
  import opened Contracts
  import opened Rbac
  import opened Sorting
  import opened Store
  import opened ReadPath
  import opened ListAgreement
  import S = Services

  // ---- values ----------------------------------------------------------------------------------

  ghost predicate IsNumber(v: Value, n: real) {
    v == Flt(n) || (v.Int? && v.i as real == n)
  }

  predicate OccursAt(needle: string, s: string, i: int) {
    0 <= i <= |s| - |needle| && s[i..i + |needle|] == needle
  }

  /** The needle stands somewhere in the string. */
  ghost predicate Occurs(needle: string, s: string) {
    exists i :: OccursAt(needle, s, i)
  }

  predicate Ranks(op: CompareOp, a: real, b: real) {
    && (op.Gt? ==> a > b) && (op.Lt? ==> a < b) && (op.Gte? ==> a >= b) && (op.Lte? ==> a <= b)
  }

  /** The value stands to the bound as the operator says. */
  ghost predicate Stands(v: Value, op: CompareOp, bound: Value) {
    match op
    case Eq => v == bound
    case Ne => v != bound
    case In => bound.Arr? && exists i | 0 <= i < |bound.items| :: bound.items[i] == v
    case Contains =>
      (v.Str? && bound.Str? && Occurs(bound.s, v.s)) || (v.Arr? && exists i | 0 <= i < |v.items| :: v.items[i] == bound)
    case _ => exists a, b :: IsNumber(v, a) && IsNumber(bound, b) && Ranks(op, a, b)
  }

  lemma {:induction false} SubstringsOccur(needle: string, s: string)
    ensures IsSubstring(needle, s) <==> Occurs(needle, s)
  {
    if HasPrefix(s, needle) {
      assert OccursAt(needle, s, 0);
    } else if s != [] {
      SubstringsOccur(needle, s[1..]);
      OccursLater(needle, s);
    }
  }

  lemma OccursLater(needle: string, s: string)
    requires s != [] && !HasPrefix(s, needle)
    ensures Occurs(needle, s) <==> Occurs(needle, s[1..])
  {
    var n, t := |needle|, s[1..];
    if i :| OccursAt(needle, t, i) {
      assert s[i + 1..i + 1 + n] == t[i..i + n];
      assert OccursAt(needle, s, i + 1);
    }
    if i :| OccursAt(needle, s, i) {
      assert i != 0;
      assert t[i - 1..i - 1 + n] == s[i..i + n];
      assert OccursAt(needle, t, i - 1);
    }
  }

  /** The one comparison behind filters and conditions decides just that. */
  lemma CompareMeans(v: Value, op: CompareOp, bound: Value)
    ensures Compare(v, op, bound) <==> Stands(v, op, bound)
  {
    if v.Str? && bound.Str? {
      SubstringsOccur(bound.s, v.s);
    }
    var a, b := AsReal(v), AsReal(bound);
    if a.Some? && b.Some? {
      assert IsNumber(v, a.value) && IsNumber(bound, b.value);
    }
  }

  // ---- what a caller can list --------------------------------------------------------------------

  /** Some page of the list has the record. */
  ghost predicate Listed(
    cfg: Config, db: Db, ctx: AuthContext, objectType: string, filter: RecordFilter, id: string, now: int)
  {
    exists page: Page :: OnPage(cfg, db, ctx, objectType, filter, page, id, now)
  }

  ghost predicate OnPage(
    cfg: Config, db: Db, ctx: AuthContext, objectType: string, filter: RecordFilter, page: Page, id: string, now: int)
  {
    var reply := S.ListRecords(cfg, db, ctx, objectType, filter.(page := page), now).reply;
    reply.Ok? && exists item | item in reply.value.items :: item.id == id
  }

  ghost predicate Scanned(
    cfg: Config, db: Db, ctx: AuthContext, objectType: string, filters: seq<FieldFilter>, archived: bool, id: string,
    now: int)
  {
    var reply := S.ScanRecords(cfg, db, ctx, objectType, filters, archived, now).reply;
    reply.Ok? && exists item | item in reply.value :: item.id == id
  }

  ghost predicate Among(rows: seq<Record>, id: string) {
    exists r | r in rows :: r.id == id
  }

  lemma ShownAmong(
    cfg: Config, ctx: AuthContext, grants: seq<Grant>, otype: ObjectType, objectType: string, rows: seq<Record>,
    id: string)
    ensures Among(ShownAll(cfg, ctx, grants, otype, objectType, rows), id) <==> Among(rows, id)
  {
    hide GrantApplies, FieldPermitted;
    var shown := ShownAll(cfg, ctx, grants, otype, objectType, rows);
    assert forall i | 0 <= i < |rows| :: shown[i].id == rows[i].id;
    if r :| r in rows && r.id == id {
      var i :| 0 <= i < |rows| && rows[i] == r;
      assert shown[i] in shown;
    }
    if r :| r in shown && r.id == id {
      var i :| 0 <= i < |shown| && shown[i] == r;
      assert rows[i] in rows;
    }
  }

  lemma {:induction false} SelectIsShorter(
    cfg: Config, ctx: AuthContext, grants: seq<Grant>, objectType: string, filter: RecordFilter, rows: seq<Record>)
    ensures |Arrange(filter, Select(cfg, ctx, grants, objectType, filter, rows))| <= |rows|
  {
    ArrangeKeepsRows(filter, Select(cfg, ctx, grants, objectType, filter, rows));
  }

  lemma ListsAreBounded(cfg: Config, db: Db, ctx: AuthContext, objectType: string, filter: RecordFilter)
    ensures |ListRows(cfg, db, ctx, objectType, filter)| <= MAX_SCAN
  {
    SelectIsShorter(cfg, ctx, EffectiveGrants(cfg.roles, ctx), objectType, filter,
                    Candidates(db, ctx.tenantId, objectType, filter.includeArchived));
  }

  lemma ItemsAreAmong(cfg: Config, db: Db, ctx: AuthContext, objectType: string, filter: RecordFilter, id: string)
    requires LoadType(cfg, ctx.tenantId, objectType).Some?
    ensures Among(WholeList(cfg, db, ctx, objectType, filter), id)
            <==> Among(ListRows(cfg, db, ctx, objectType, filter), id)
    ensures |WholeList(cfg, db, ctx, objectType, filter)| <= MAX_SCAN
  {
    hide ListRows;
    ListsAreBounded(cfg, db, ctx, objectType, filter);
    ShownAmong(cfg, ctx, EffectiveGrants(cfg.roles, ctx), LoadType(cfg, ctx.tenantId, objectType).value, objectType,
               ListRows(cfg, db, ctx, objectType, filter), id);
  }

  lemma Refused(cfg: Config, db: Db, ctx: AuthContext, objectType: string, filter: RecordFilter, now: int)
    requires !MayList(cfg, ctx, objectType)
    ensures S.ListRecords(cfg, db, ctx, objectType, filter, now).reply.Err?
    ensures S.ScanRecords(cfg, db, ctx, objectType, filter.filters, filter.includeArchived, now).reply.Err?
  {
    hide Authorized, ListPage, Scan;
  }

  /** The pages have exactly the rows. */
  lemma ListedExactly(
    cfg: Config, db: Db, ctx: AuthContext, objectType: string, filter: RecordFilter, id: string, now: int)
    ensures Listed(cfg, db, ctx, objectType, filter, id, now)
            <==> MayList(cfg, ctx, objectType) && Among(ListRows(cfg, db, ctx, objectType, filter), id)
  {
    hide ListRows, S.ListRecords, MayList, WholeList;
    if !MayList(cfg, ctx, objectType) {
      forall page: Page ensures !OnPage(cfg, db, ctx, objectType, filter, page, id, now) {
        Refused(cfg, db, ctx, objectType, filter.(page := page), now);
      }
    } else {
      MayListLoads(cfg, ctx, objectType);
      ItemsAreAmong(cfg, db, ctx, objectType, filter, id);
      var whole := WholeList(cfg, db, ctx, objectType, filter);
      forall page: Page | OnPage(cfg, db, ctx, objectType, filter, page, id, now) ensures Among(whole, id) {
        ListsSliceTheWhole(cfg, db, ctx, objectType, filter.(page := page), now);
        SameWhole(cfg, db, ctx, objectType, filter, page);
      }
      if r :| r in whole && r.id == id {
        var i :| 0 <= i < |whole| && whole[i] == r;
        OnePage(cfg, db, ctx, objectType, filter, 1, i, now);
        var reply := S.ListRecords(cfg, db, ctx, objectType, filter.(page := Page(1, i)), now).reply;
        assert reply.value.items[0] == whole[i];
        assert OnPage(cfg, db, ctx, objectType, filter, Page(1, i), id, now);
      }
    }
  }

  lemma MayListLoads(cfg: Config, ctx: AuthContext, objectType: string)
    requires MayList(cfg, ctx, objectType)
    ensures LoadType(cfg, ctx.tenantId, objectType).Some?
  {
  }

  lemma SameWhole(cfg: Config, db: Db, ctx: AuthContext, objectType: string, filter: RecordFilter, page: Page)
    requires LoadType(cfg, ctx.tenantId, objectType).Some?
    ensures WholeList(cfg, db, ctx, objectType, filter.(page := page)) == WholeList(cfg, db, ctx, objectType, filter)
  {
    PageDoesNotMatter(cfg, db, ctx, objectType, filter, page);
  }

  lemma ScannedExactly(
    cfg: Config, db: Db, ctx: AuthContext, objectType: string, filters: seq<FieldFilter>, archived: bool, id: string,
    now: int)
    ensures Scanned(cfg, db, ctx, objectType, filters, archived, id, now)
            <==> MayList(cfg, ctx, objectType)
                 && Among(ListRows(cfg, db, ctx, objectType, ScanFilter(filters, archived)), id)
  {
    hide ListRows, Scan, Authorized;
    if !MayList(cfg, ctx, objectType) {
      Refused(cfg, db, ctx, objectType, ScanFilter(filters, archived), now);
    } else {
      var otype := LoadType(cfg, ctx.tenantId, objectType).value;
      ScanShowsListRows(cfg, db, ctx, otype, objectType, filters, archived);
      ShownAmong(cfg, ctx, EffectiveGrants(cfg.roles, ctx), otype, objectType,
                 ListRows(cfg, db, ctx, objectType, ScanFilter(filters, archived)), id);
    }
  }

  // ---- one clause more ----------------------------------------------------------------------------

  function Plus(filter: RecordFilter, f: FieldFilter): RecordFilter {
    filter.(filters := filter.filters + [f])
  }

  lemma ListRowsAreSelected(
    cfg: Config, db: Db, ctx: AuthContext, objectType: string, filter: RecordFilter, r: Record)
    ensures r in ListRows(cfg, db, ctx, objectType, filter)
            <==> r in Candidates(db, ctx.tenantId, objectType, filter.includeArchived)
                 && Selected(cfg, ctx, EffectiveGrants(cfg.roles, ctx), objectType, filter, r)
  {
    hide Selected, Candidates, EffectiveGrants;
    ArrangeKeepsRows(filter, Select(cfg, ctx, EffectiveGrants(cfg.roles, ctx), objectType, filter,
                                    Candidates(db, ctx.tenantId, objectType, filter.includeArchived)));
  }

  lemma ClauseKeepsRows(
    cfg: Config, db: Db, ctx: AuthContext, objectType: string, filter: RecordFilter, f: FieldFilter, r: Record)
    ensures r in ListRows(cfg, db, ctx, objectType, Plus(filter, f))
            <==> r in ListRows(cfg, db, ctx, objectType, filter)
                 && f.field in r.data && Stands(r.data[f.field], f.op, f.value)
  {
    hide ListRows, Candidates, Compare, Stands, EffectiveGrants, MatchesFilters, Readable, Found;
    ListRowsAreSelected(cfg, db, ctx, objectType, filter, r);
    ListRowsAreSelected(cfg, db, ctx, objectType, Plus(filter, f), r);
    OneMoreFilter(r, filter.filters, f);
    if f.field in r.data {
      CompareMeans(r.data[f.field], f.op, f.value);
    }
  }

  lemma OneMoreFilter(r: Record, filters: seq<FieldFilter>, f: FieldFilter)
    ensures MatchesFilters(r, filters + [f]) <==> MatchesFilters(r, filters) && MatchesFilter(r, f)
  {
    hide MatchesFilter;
    assert forall g :: g in filters + [f] <==> g in filters || g == f;
  }

  /** The stored record has the field, and its value stands to the clause's bound as it says. */
  ghost predicate Meets(db: Db, id: string, f: FieldFilter) {
    id in db.records && f.field in db.records[id].data && Stands(db.records[id].data[f.field], f.op, f.value)
  }

  lemma AmongIsStored(cfg: Config, db: Db, ctx: AuthContext, objectType: string, filter: RecordFilter, id: string)
    requires WellFormed(db)
    ensures Among(ListRows(cfg, db, ctx, objectType, filter), id)
            <==> id in db.records && db.records[id] in ListRows(cfg, db, ctx, objectType, filter)
  {
    hide ListRows, Selected, IsCandidate;
    var rows := ListRows(cfg, db, ctx, objectType, filter);
    if r :| r in rows && r.id == id {
      ListedRowIsStored(cfg, db, ctx, objectType, filter, r);
    }
  }

  lemma ClauseKeepsIds(
    cfg: Config, db: Db, ctx: AuthContext, objectType: string, filter: RecordFilter, f: FieldFilter, id: string)
    requires WellFormed(db)
    ensures Among(ListRows(cfg, db, ctx, objectType, Plus(filter, f)), id)
            <==> Among(ListRows(cfg, db, ctx, objectType, filter), id) && Meets(db, id, f)
  {
    hide ListRows, WellFormed, Stands, Among;
    AmongIsStored(cfg, db, ctx, objectType, filter, id);
    AmongIsStored(cfg, db, ctx, objectType, Plus(filter, f), id);
    if id in db.records {
      ClauseKeepsRows(cfg, db, ctx, objectType, filter, f, db.records[id]);
    }
  }

  /** One clause more leaves exactly the listed records, and exactly the scanned ones, whose stored
      value stands to the clause's bound as its operator says. */
  lemma ClausesNarrow(
    cfg: Config, db: Db, ctx: AuthContext, objectType: string, filter: RecordFilter, f: FieldFilter, id: string,
    now: int)
    requires WellFormed(db)
    ensures Listed(cfg, db, ctx, objectType, Plus(filter, f), id, now)
            <==> Listed(cfg, db, ctx, objectType, filter, id, now) && Meets(db, id, f)
    ensures var archived := filter.includeArchived;
            Scanned(cfg, db, ctx, objectType, filter.filters + [f], archived, id, now)
            <==> Scanned(cfg, db, ctx, objectType, filter.filters, archived, id, now) && Meets(db, id, f)
  {
    hide ListRows, WellFormed, Meets, Among, Listed, Scanned, MayList;
    ListedExactly(cfg, db, ctx, objectType, filter, id, now);
    ListedExactly(cfg, db, ctx, objectType, Plus(filter, f), id, now);
    ClauseKeepsIds(cfg, db, ctx, objectType, filter, f, id);
    var scan := ScanFilter(filter.filters, filter.includeArchived);
    ScannedExactly(cfg, db, ctx, objectType, filter.filters, filter.includeArchived, id, now);
    ScannedExactly(cfg, db, ctx, objectType, filter.filters + [f], filter.includeArchived, id, now);
    ClauseKeepsIds(cfg, db, ctx, objectType, scan, f, id);
    assert Plus(scan, f) == ScanFilter(filter.filters + [f], filter.includeArchived);
  }

  /** The stored record's field holds the number. */
  ghost predicate Holds(db: Db, id: string, field: string, n: real) {
    id in db.records && field in db.records[id].data && IsNumber(db.records[id].data[field], n)
  }

  lemma OneNumber(v: Value, a: real, b: real)
    requires IsNumber(v, a) && IsNumber(v, b)
    ensures a == b
  {
  }

  lemma MeetsNumber(db: Db, id: string, field: string, op: CompareOp, v: Value, bound: real)
    requires IsNumber(v, bound) && (op.Gt? || op.Gte? || op.Lt? || op.Lte?)
    ensures Meets(db, id, FieldFilter(field, op, v)) <==> exists n :: Holds(db, id, field, n) && Ranks(op, n, bound)
  {
    hide Ranks, IsNumber;
    if Meets(db, id, FieldFilter(field, op, v)) {
      var a, b :| IsNumber(db.records[id].data[field], a) && IsNumber(v, b) && Ranks(op, a, b);
      OneNumber(v, b, bound);
      assert Holds(db, id, field, a);
    }
  }

  /** The list with a clause on a field. */
  ghost predicate ListedIf(
    cfg: Config, db: Db, ctx: AuthContext, objectType: string, filter: RecordFilter, field: string, op: CompareOp,
    v: Value, id: string, now: int)
  {
    Listed(cfg, db, ctx, objectType, Plus(filter, FieldFilter(field, op, v)), id, now)
  }

  /** A numeric clause keeps exactly the records whose stored number is above, at least, below or at
      most its bound. */
  lemma NumericClauses(
    cfg: Config, db: Db, ctx: AuthContext, objectType: string, filter: RecordFilter, field: string, v: Value,
    bound: real, id: string, now: int)
    requires WellFormed(db) && IsNumber(v, bound)
    ensures var base := Listed(cfg, db, ctx, objectType, filter, id, now);
            && (ListedIf(cfg, db, ctx, objectType, filter, field, Gt, v, id, now)
                <==> base && exists n :: Holds(db, id, field, n) && n > bound)
            && (ListedIf(cfg, db, ctx, objectType, filter, field, Gte, v, id, now)
                <==> base && exists n :: Holds(db, id, field, n) && n >= bound)
            && (ListedIf(cfg, db, ctx, objectType, filter, field, Lt, v, id, now)
                <==> base && exists n :: Holds(db, id, field, n) && n < bound)
            && (ListedIf(cfg, db, ctx, objectType, filter, field, Lte, v, id, now)
                <==> base && exists n :: Holds(db, id, field, n) && n <= bound)
  {
    hide WellFormed, Meets, Listed, Scanned, Holds;
    forall op | op == Gt || op == Gte || op == Lt || op == Lte
      ensures ListedIf(cfg, db, ctx, objectType, filter, field, op, v, id, now)
              <==> Listed(cfg, db, ctx, objectType, filter, id, now)
                   && exists n :: Holds(db, id, field, n) && Ranks(op, n, bound)
    {
      ClausesNarrow(cfg, db, ctx, objectType, filter, FieldFilter(field, op, v), id, now);
      MeetsNumber(db, id, field, op, v, bound);
    }
  }

  /** So it does in a scan. */
  lemma NumericScans(
    cfg: Config, db: Db, ctx: AuthContext, objectType: string, filters: seq<FieldFilter>, archived: bool, field: string,
    v: Value, bound: real, id: string, now: int)
    requires WellFormed(db) && IsNumber(v, bound)
    ensures var base := Scanned(cfg, db, ctx, objectType, filters, archived, id, now);
            && (Scanned(cfg, db, ctx, objectType, filters + [FieldFilter(field, Gt, v)], archived, id, now)
                <==> base && exists n :: Holds(db, id, field, n) && n > bound)
            && (Scanned(cfg, db, ctx, objectType, filters + [FieldFilter(field, Gte, v)], archived, id, now)
                <==> base && exists n :: Holds(db, id, field, n) && n >= bound)
            && (Scanned(cfg, db, ctx, objectType, filters + [FieldFilter(field, Lt, v)], archived, id, now)
                <==> base && exists n :: Holds(db, id, field, n) && n < bound)
            && (Scanned(cfg, db, ctx, objectType, filters + [FieldFilter(field, Lte, v)], archived, id, now)
                <==> base && exists n :: Holds(db, id, field, n) && n <= bound)
  {
    hide WellFormed, Meets, Listed, Scanned, Holds;
    forall op | op == Gt || op == Gte || op == Lt || op == Lte
      ensures Scanned(cfg, db, ctx, objectType, filters + [FieldFilter(field, op, v)], archived, id, now)
              <==> Scanned(cfg, db, ctx, objectType, filters, archived, id, now)
                   && exists n :: Holds(db, id, field, n) && Ranks(op, n, bound)
    {
      ClausesNarrow(cfg, db, ctx, objectType, ScanFilter(filters, archived), FieldFilter(field, op, v), id, now);
      MeetsNumber(db, id, field, op, v, bound);
    }
  }

  /** Above and at most split the records with a number, as do below and at least; a higher bound
      only takes away from what is above it, and adds to what is below. */
  lemma NumericClausesSplit(
    cfg: Config, db: Db, ctx: AuthContext, objectType: string, filter: RecordFilter, field: string, v: Value, w: Value,
    low: real, high: real, id: string, n: real, now: int)
    requires WellFormed(db) && IsNumber(v, low) && IsNumber(w, high) && low <= high
    requires Holds(db, id, field, n) && Listed(cfg, db, ctx, objectType, filter, id, now)
    ensures ListedIf(cfg, db, ctx, objectType, filter, field, Gt, v, id, now)
            != ListedIf(cfg, db, ctx, objectType, filter, field, Lte, v, id, now)
    ensures ListedIf(cfg, db, ctx, objectType, filter, field, Lt, v, id, now)
            != ListedIf(cfg, db, ctx, objectType, filter, field, Gte, v, id, now)
    ensures ListedIf(cfg, db, ctx, objectType, filter, field, Gt, w, id, now)
            ==> ListedIf(cfg, db, ctx, objectType, filter, field, Gt, v, id, now)
    ensures ListedIf(cfg, db, ctx, objectType, filter, field, Lt, v, id, now)
            ==> ListedIf(cfg, db, ctx, objectType, filter, field, Lt, w, id, now)
  {
    hide WellFormed, Listed, ListedIf;
    NumericClauses(cfg, db, ctx, objectType, filter, field, v, low, id, now);
    NumericClauses(cfg, db, ctx, objectType, filter, field, w, high, id, now);
    forall m | Holds(db, id, field, m) ensures m == n {
      OneNumber(db.records[id].data[field], m, n);
    }
  }

  /** The stored value of the field. */
  function Stored(db: Db, id: string, field: string): Option<Value> {
    if id in db.records then Lookup(db.records[id].data, field) else None
  }

  /** The other clauses: equal or not, one of a list, and text or items contained. */
  lemma OtherClauses(
    cfg: Config, db: Db, ctx: AuthContext, objectType: string, filter: RecordFilter, field: string, v: Value,
    id: string, now: int)
    requires WellFormed(db)
    ensures var base, held := Listed(cfg, db, ctx, objectType, filter, id, now), Stored(db, id, field);
            && (ListedIf(cfg, db, ctx, objectType, filter, field, Eq, v, id, now) <==> base && held == Some(v))
            && (ListedIf(cfg, db, ctx, objectType, filter, field, Ne, v, id, now)
                <==> base && held.Some? && held.value != v)
            && (v.Arr? ==>
                  (ListedIf(cfg, db, ctx, objectType, filter, field, In, v, id, now)
                   <==> base && exists i | 0 <= i < |v.items| :: held == Some(v.items[i])))
            && (v.Str? && held.Some? && held.value.Str? ==>
                  (ListedIf(cfg, db, ctx, objectType, filter, field, Contains, v, id, now)
                   <==> base && Occurs(v.s, held.value.s)))
            && (held.Some? && held.value.Arr? ==>
                  (ListedIf(cfg, db, ctx, objectType, filter, field, Contains, v, id, now)
                   <==> base && exists i | 0 <= i < |held.value.items| :: held.value.items[i] == v))
  {
    hide WellFormed, Listed, Scanned;
    forall op
      ensures ListedIf(cfg, db, ctx, objectType, filter, field, op, v, id, now)
              <==> Listed(cfg, db, ctx, objectType, filter, id, now) && Meets(db, id, FieldFilter(field, op, v))
    {
      ClausesNarrow(cfg, db, ctx, objectType, filter, FieldFilter(field, op, v), id, now);
    }
  }

  // ---- searches -------------------------------------------------------------------------------------

  /** Some text of the stored record has the needle in it, case-folded. */
  ghost predicate TextHas(cfg: Config, db: Db, id: string, needle: string) {
    id in db.records
    && exists k | k in db.records[id].data ::
         db.records[id].data[k].Str? && Occurs(cfg.toLower(needle), cfg.toLower(db.records[id].data[k].s))
  }

  lemma SearchMeans(r: Record, needle: string, toLower: string -> string)
    ensures MatchesSearch(r, needle, toLower)
            <==> exists k | k in r.data :: r.data[k].Str? && Occurs(needle, toLower(r.data[k].s))
  {
    hide IsSubstring, Occurs;
    forall s ensures IsSubstring(needle, s) <==> Occurs(needle, s) {
      SubstringsOccur(needle, s);
    }
  }

  /** A search keeps exactly the records some text of which has the needle in it; an empty search
      keeps all. */
  lemma SearchesNarrow(
    cfg: Config, db: Db, ctx: AuthContext, objectType: string, filter: RecordFilter, needle: string, id: string,
    now: int)
    requires WellFormed(db)
    ensures Listed(cfg, db, ctx, objectType, filter.(search := Some(needle)), id, now)
            <==> Listed(cfg, db, ctx, objectType, filter.(search := None), id, now)
                 && (needle == "" || TextHas(cfg, db, id, needle))
  {
    hide ListRows, WellFormed, Listed, MayList, Among, Candidates, Readable, MatchesFilters, MatchesSearch, Occurs;
    var with, without := filter.(search := Some(needle)), filter.(search := None);
    ListedExactly(cfg, db, ctx, objectType, with, id, now);
    ListedExactly(cfg, db, ctx, objectType, without, id, now);
    AmongIsStored(cfg, db, ctx, objectType, with, id);
    AmongIsStored(cfg, db, ctx, objectType, without, id);
    if id in db.records {
      var r := db.records[id];
      ListRowsAreSelected(cfg, db, ctx, objectType, with, r);
      ListRowsAreSelected(cfg, db, ctx, objectType, without, r);
      SearchMeans(r, cfg.toLower(needle), cfg.toLower);
    }
  }

  // ---- without clauses ------------------------------------------------------------------------------

  /** Without clauses and search a list within the scan bound has exactly the stored records of the
      tenant and type that are active, or any if archived ones are asked for, and that the caller can
      fetch one by one. */
  lemma UnfilteredListsAreTheGettable(
    cfg: Config, db: Db, ctx: AuthContext, objectType: string, filter: RecordFilter, id: string, now: int)
    requires WellFormed(db) && MayList(cfg, ctx, objectType) && filter.filters == [] && filter.search.None?
    requires |MatchingRows(db.order, db.records, ctx.tenantId, objectType, filter.includeArchived)| <= MAX_SCAN
    ensures Listed(cfg, db, ctx, objectType, filter, id, now)
            <==> && id in db.records && db.records[id].tenantId == ctx.tenantId
                 && db.records[id].objectType == objectType
                 && (filter.includeArchived || db.records[id].lifecycle == Active)
                 && S.GetRecord(cfg, db, ctx, id, now).reply.Ok?
  {
    hide ListRows, Listed, Among, Authorized, Readable, Candidates;
    ListedExactly(cfg, db, ctx, objectType, filter, id, now);
    AmongIsStored(cfg, db, ctx, objectType, filter, id);
    if id in db.records {
      ListRowsAreSelected(cfg, db, ctx, objectType, filter, db.records[id]);
      CandidatesAreStored(db, ctx.tenantId, objectType, filter.includeArchived, id);
      if db.records[id].tenantId == ctx.tenantId && db.records[id].objectType == objectType {
        GetMeansReadable(cfg, db, ctx, objectType, id, now);
      }
    }
  }

  lemma LifecycleKeepsRows(cfg: Config, db: Db, ctx: AuthContext, id: string, to: Lifecycle, now: int)
    requires WellFormed(db) && S.SetLifecycle(cfg, db, ctx, id, to, now).reply.Ok?
    ensures var after := Commit(db, S.SetLifecycle(cfg, db, ctx, id, to, now).tx);
            && WellFormed(after) && LoadRecord(db, ctx.tenantId, id).Some?
            && after.records
               == db.records[id := db.records[id].(lifecycle := to, updatedAt := now,
                                                  archivedAt := if to == Archived then Some(now) else None)]
  {
    hide Authorized, S.DenyAction;
  }

  /** An archived record is gone from the lists that do not ask for archived ones; a restored one is on
      them again for whoever can fetch it, and either is on those that do ask. */
  lemma ArchivedRecordsLeaveTheLists(
    cfg: Config, db: Db, ctx: AuthContext, clerk: AuthContext, id: string, to: Lifecycle, filter: RecordFilter,
    now: int, later: int)
    requires WellFormed(db) && S.SetLifecycle(cfg, db, clerk, id, to, now).reply.Ok?
    requires clerk.tenantId == ctx.tenantId && filter.filters == [] && filter.search.None?
    requires MayList(cfg, ctx, db.records[id].objectType)
    requires var after := Commit(db, S.SetLifecycle(cfg, db, clerk, id, to, now).tx);
             && S.GetRecord(cfg, after, ctx, id, later).reply.Ok?
             && |MatchingRows(after.order, after.records, ctx.tenantId, db.records[id].objectType,
                              filter.includeArchived)| <= MAX_SCAN
    ensures var after := Commit(db, S.SetLifecycle(cfg, db, clerk, id, to, now).tx);
            Listed(cfg, after, ctx, db.records[id].objectType, filter, id, later)
            <==> filter.includeArchived || to == Active
  {
    hide WellFormed, Listed, S.SetLifecycle, S.GetRecord, MayList, MatchingRows;
    LifecycleKeepsRows(cfg, db, clerk, id, to, now);
    var after := Commit(db, S.SetLifecycle(cfg, db, clerk, id, to, now).tx);
    UnfilteredListsAreTheGettable(cfg, after, ctx, db.records[id].objectType, filter, id, later);
  }

  lemma CandidatesAreStored(db: Db, tenantId: string, objectType: string, archived: bool, id: string)
    requires WellFormed(db) && id in db.records
    requires |MatchingRows(db.order, db.records, tenantId, objectType, archived)| <= MAX_SCAN
    ensures db.records[id] in Candidates(db, tenantId, objectType, archived)
            <==> IsCandidate(db.records[id], tenantId, objectType, archived)
  {
    var r, rows := db.records[id], MatchingRows(db.order, db.records, tenantId, objectType, archived);
    SortedKeepsRows(NewestFirst, rows);
    if IsCandidate(r, tenantId, objectType, archived) {
      MatchingRowsAreAll(db.order, db.records, tenantId, objectType, archived, id);
    }
  }

  lemma GetMeansReadable(cfg: Config, db: Db, ctx: AuthContext, objectType: string, id: string, now: int)
    requires id in db.records && LoadType(cfg, ctx.tenantId, objectType).Some?
    requires db.records[id].tenantId == ctx.tenantId && db.records[id].objectType == objectType
    ensures S.GetRecord(cfg, db, ctx, id, now).reply.Ok?
            <==> Readable(cfg, ctx, EffectiveGrants(cfg.roles, ctx), objectType, db.records[id])
  {
    hide GrantsAllow, ProjectForRead;
  }

  // ---- orders ---------------------------------------------------------------------------------------

  /** After n equal characters the first string ends, or has the smaller one. */
  predicate FirstAt(a: string, b: string, n: int) {
    0 <= n <= |a| && n < |b| && a[..n] == b[..n] && (n == |a| || a[n] < b[n])
  }

  ghost predicate ComesFirst(a: string, b: string) {
    exists n :: FirstAt(a, b, n)
  }

  lemma {:induction false} LessComesFirst(a: string, b: string)
    ensures StrLess(a, b) <==> ComesFirst(a, b)
  {
    if b == [] {
    } else if a == [] || a[0] < b[0] {
      assert FirstAt(a, b, 0);
    } else if a[0] == b[0] {
      LessComesFirst(a[1..], b[1..]);
      FirstLater(a, b);
    } else {
      assert forall n | FirstAt(a, b, n) :: n > 0 ==> a[..n][0] == b[..n][0];
    }
  }

  lemma FirstLater(a: string, b: string)
    requires a != [] && b != [] && a[0] == b[0]
    ensures ComesFirst(a, b) <==> ComesFirst(a[1..], b[1..])
  {
    if n :| FirstAt(a[1..], b[1..], n) {
      assert a[..n + 1] == [a[0]] + a[1..][..n] && b[..n + 1] == [b[0]] + b[1..][..n];
      assert FirstAt(a, b, n + 1);
    }
    if n :| FirstAt(a, b, n) {
      assert n > 0;
      assert a[1..][..n - 1] == a[..n][1..] && b[1..][..n - 1] == b[..n][1..];
      assert FirstAt(a[1..], b[1..], n - 1);
    }
  }

  ghost predicate HasNumber(r: Record, field: string, n: real) {
    field in r.data && IsNumber(r.data[field], n)
  }

  predicate HasText(r: Record, field: string) {
    field in r.data && r.data[field].Str?
  }

  /** What the comparator's order says of two records. */
  lemma OrderMeans(field: string, a: Record, b: Record)
    requires Leq(ByField(field), a, b)
    ensures field == "created_at" ==> a.createdAt <= b.createdAt
    ensures field != "created_at" ==>
              forall m, n | HasNumber(a, field, m) && HasNumber(b, field, n) :: m <= n
    ensures field != "created_at" && field in a.data ==> field in b.data
    ensures field != "created_at" && HasText(a, field) && HasText(b, field) ==>
              !ComesFirst(b.data[field].s, a.data[field].s)
  {
    if HasText(a, field) && HasText(b, field) {
      LessComesFirst(b.data[field].s, a.data[field].s);
      if StrLess(b.data[field].s, a.data[field].s) {
        StrLessAsymmetric(b.data[field].s, a.data[field].s);
      }
    }
  }

  /** An ascending list over a field whose values are of one kind runs from smaller to greater
      numbers, or from first to last in code-point order, behind the records without a value; over the
      creation time, from old to new. */
  lemma SortedListsAscend(
    cfg: Config, db: Db, ctx: AuthContext, objectType: string, filter: RecordFilter, field: string, i: nat, j: nat)
    requires filter.sort == Some(field) && !filter.desc
    requires var rows := Kept(cfg, db, ctx, objectType, filter);
             field == CREATED_AT || AllNumbers(rows, field) || AllStrings(rows, field)
    requires i < j < |ListRows(cfg, db, ctx, objectType, filter)|
    ensures var rows := ListRows(cfg, db, ctx, objectType, filter);
            && (field == "created_at" ==> rows[i].createdAt <= rows[j].createdAt)
            && (field != "created_at" ==>
                  && (field in rows[i].data ==> field in rows[j].data)
                  && (forall m, n | HasNumber(rows[i], field, m) && HasNumber(rows[j], field, n) :: m <= n)
                  && (HasText(rows[i], field) && HasText(rows[j], field) ==>
                        !ComesFirst(rows[j].data[field].s, rows[i].data[field].s)))
  {
    hide ListRows, Kept, AllNumbers, AllStrings, Leq, HasNumber, ComesFirst;
    SortedListsAreStable(cfg, db, ctx, objectType, filter);
    var rows := ListRows(cfg, db, ctx, objectType, filter);
    assert filter.(desc := false) == filter;
    OrderMeans(field, rows[i], rows[j]);
  }

  lemma {:induction false} SelectKeepsOrder(
    cfg: Config, ctx: AuthContext, grants: seq<Grant>, objectType: string, filter: RecordFilter, rows: seq<Record>)
    requires Ordered(NewestFirst, rows)
    ensures Ordered(NewestFirst, Select(cfg, ctx, grants, objectType, filter, rows))
  {
    hide Selected;
    if rows != [] {
      var init, last := rows[..|rows| - 1], rows[|rows| - 1];
      SelectKeepsOrder(cfg, ctx, grants, objectType, filter, init);
      forall x | x in Select(cfg, ctx, grants, objectType, filter, init) ensures Leq(NewestFirst, x, last) {
        var k :| 0 <= k < |init| && init[k] == x;
        assert Leq(NewestFirst, rows[k], rows[|rows| - 1]);
      }
    }
  }

  lemma CandidatesAreOrdered(db: Db, tenantId: string, objectType: string, archived: bool)
    ensures Ordered(NewestFirst, Candidates(db, tenantId, objectType, archived))
  {
    var rows := MatchingRows(db.order, db.records, tenantId, objectType, archived);
    CreationTimeIsPreorder(rows);
    SortIsStable(NewestFirst, rows);
  }

  /** A list without a sort runs from new to old. */
  lemma UnsortedListsAreNewestFirst(
    cfg: Config, db: Db, ctx: AuthContext, objectType: string, filter: RecordFilter, i: nat, j: nat)
    requires filter.sort == None && i < j < |ListRows(cfg, db, ctx, objectType, filter)|
    ensures var rows := ListRows(cfg, db, ctx, objectType, filter); rows[i].createdAt >= rows[j].createdAt
  {
    hide Candidates, Select, EffectiveGrants;
    CandidatesAreOrdered(db, ctx.tenantId, objectType, filter.includeArchived);
    SelectKeepsOrder(cfg, ctx, EffectiveGrants(cfg.roles, ctx), objectType, filter,
                     Candidates(db, ctx.tenantId, objectType, filter.includeArchived));
    assert Leq(NewestFirst, ListRows(cfg, db, ctx, objectType, filter)[i],
               ListRows(cfg, db, ctx, objectType, filter)[j]);
  }

  /** When there are more than 5000 candidates, the ones left out are no newer than those kept. */
  lemma TheCutKeepsTheNewest(db: Db, tenantId: string, objectType: string, archived: bool, id: string, kept: Record)
    requires WellFormed(db) && id in db.records && IsCandidate(db.records[id], tenantId, objectType, archived)
    requires kept in Candidates(db, tenantId, objectType, archived)
    requires db.records[id] !in Candidates(db, tenantId, objectType, archived)
    ensures |Candidates(db, tenantId, objectType, archived)| == 5000 && kept.createdAt >= db.records[id].createdAt
  {
    var rows := MatchingRows(db.order, db.records, tenantId, objectType, archived);
    MatchingRowsAreAll(db.order, db.records, tenantId, objectType, archived, id);
    CreationTimeIsPreorder(rows);
    SortIsStable(NewestFirst, rows);
    SortedKeepsRows(NewestFirst, rows);
    var sorted := Sorted(NewestFirst, rows);
    var j :| 0 <= j < |sorted| && sorted[j] == db.records[id];
    var i :| 0 <= i < |sorted| && i < MAX_SCAN && sorted[i] == kept;
    assert j >= MAX_SCAN;
    assert Leq(NewestFirst, sorted[i], sorted[j]);
  }
}
