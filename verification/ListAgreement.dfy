/** Lists, pages and single reads agree. */
module ListAgreement {
  import opened Values
  import opened Contracts
  import opened Rbac
  import opened Sorting
  import opened Store
  import opened ReadPath
  import S = Services

  // ---- pages ---------------------------------------------------------------------------------

  /** What a caller collects by asking for n pages one after the other, from an offset on. */
  function CollectPages(
    cfg: Config, db: Db, ctx: AuthContext, objectType: string, filter: RecordFilter, limit: int, offset: int, n: nat,
    now: int): Result<seq<Record>>
    decreases n
  {
    if n == 0 then Ok([])
    else
      var page := S.ListRecords(cfg, db, ctx, objectType, filter.(page := Page(limit, offset)), now).reply;
      if page.Err? then Err(page.code)
      else
        var rest := CollectPages(cfg, db, ctx, objectType, filter, limit, offset + limit, n - 1, now);
        if rest.Err? then rest else Ok(page.value.items + rest.value)
  }

  lemma SliceShown(
    cfg: Config, ctx: AuthContext, grants: seq<Grant>, otype: ObjectType, objectType: string, rows: seq<Record>,
    lo: nat, hi: nat)
    requires lo <= hi <= |rows|
    ensures ShownAll(cfg, ctx, grants, otype, objectType, rows[lo..hi])
            == ShownAll(cfg, ctx, grants, otype, objectType, rows)[lo..hi]
  {
  }

  /** The page asked for does not change which rows are listed, or their order. */
  lemma PageDoesNotMatter(
    cfg: Config, db: Db, ctx: AuthContext, objectType: string, filter: RecordFilter, page: Page)
    ensures ListRows(cfg, db, ctx, objectType, filter.(page := page)) == ListRows(cfg, db, ctx, objectType, filter)
  {
    SelectAlike(cfg, ctx, EffectiveGrants(cfg.roles, ctx), objectType, filter.(page := page), filter,
                Candidates(db, ctx.tenantId, objectType, filter.includeArchived));
  }

  /** Everything the caller could page through, as the list shows it. */
  function WholeList(cfg: Config, db: Db, ctx: AuthContext, objectType: string, filter: RecordFilter): seq<Record>
    requires LoadType(cfg, ctx.tenantId, objectType).Some?
  {
    ShownAll(cfg, ctx, EffectiveGrants(cfg.roles, ctx), LoadType(cfg, ctx.tenantId, objectType).value, objectType,
             ListRows(cfg, db, ctx, objectType, filter))
  }

  predicate MayList(cfg: Config, ctx: AuthContext, objectType: string) {
    Authorized(cfg, ctx, Search, ObjectResource(objectType), None)
    && LoadType(cfg, ctx.tenantId, objectType).Some?
  }

  lemma OnePage(
    cfg: Config, db: Db, ctx: AuthContext, objectType: string, filter: RecordFilter, limit: int, offset: int, now: int)
    requires MayList(cfg, ctx, objectType) && 1 <= limit <= 500 && 0 <= offset && offset + limit <= MAX_I64
    ensures var reply := S.ListRecords(cfg, db, ctx, objectType, filter.(page := Page(limit, offset)), now).reply;
            var whole := WholeList(cfg, db, ctx, objectType, filter);
            && reply.Ok? && reply.value.total == |whole|
            && reply.value.items == whole[MinInt(offset, |whole|)..MinInt(offset + limit, |whole|)]
  {
    hide Authorized, EffectiveGrants, ListRows;
    var rows := ListRows(cfg, db, ctx, objectType, filter);
    PageDoesNotMatter(cfg, db, ctx, objectType, filter, Page(limit, offset));
    SliceShown(cfg, ctx, EffectiveGrants(cfg.roles, ctx), LoadType(cfg, ctx.tenantId, objectType).value, objectType,
               rows, MinInt(offset, |rows|), MinInt(offset + limit, |rows|));
  }

  lemma OnePageFewer(n: nat, limit: int)
    requires 1 <= limit
    ensures n == 0 ==> n * limit == 0
    ensures n > 0 ==> n * limit == limit + (n - 1) * limit && 0 <= (n - 1) * limit
  {
  }

  lemma {:induction false} PagesFromOffset(
    cfg: Config, db: Db, ctx: AuthContext, objectType: string, filter: RecordFilter, limit: int, offset: int, n: nat,
    now: int)
    requires MayList(cfg, ctx, objectType) && 1 <= limit <= 500 && 0 <= offset
    requires |WholeList(cfg, db, ctx, objectType, filter)| <= offset + n * limit <= MAX_I64
    ensures var whole := WholeList(cfg, db, ctx, objectType, filter);
            CollectPages(cfg, db, ctx, objectType, filter, limit, offset, n, now)
            == Ok(whole[MinInt(offset, |whole|)..])
    decreases n
  {
    hide S.ListRecords, WholeList;
    var whole := WholeList(cfg, db, ctx, objectType, filter);
    if n == 0 {
      OnePageFewer(0, limit);
      assert whole[|whole|..] == [];
    } else {
      OnePageFewer(n, limit);
      OnePage(cfg, db, ctx, objectType, filter, limit, offset, now);
      PagesFromOffset(cfg, db, ctx, objectType, filter, limit, offset + limit, n - 1, now);
      Rejoin(whole, MinInt(offset, |whole|), MinInt(offset + limit, |whole|));
    }
  }

  lemma Rejoin<T>(s: seq<T>, lo: nat, mid: nat)
    requires lo <= mid <= |s|
    ensures s[lo..mid] + s[mid..] == s[lo..]
  {
  }

  /** For every page size from 1 to 500, the successive pages concatenate to the whole filtered,
      sorted and projected sequence. */
  lemma PagesConcatenate(
    cfg: Config, db: Db, ctx: AuthContext, objectType: string, filter: RecordFilter, limit: int, n: nat, now: int)
    requires MayList(cfg, ctx, objectType) && 1 <= limit <= 500
    requires |WholeList(cfg, db, ctx, objectType, filter)| <= n * limit <= MAX_I64
    ensures CollectPages(cfg, db, ctx, objectType, filter, limit, 0, n, now)
            == Ok(WholeList(cfg, db, ctx, objectType, filter))
  {
    PagesFromOffset(cfg, db, ctx, objectType, filter, limit, 0, n, now);
  }

  /** Whatever page is asked for, a permitted list of a known type replies with the slice of the whole
      that the clamped page names and with the length of the whole; only when the clamped offset and
      limit add up past the 64-bit range does it fail. */
  lemma ListsSliceTheWhole(
    cfg: Config, db: Db, ctx: AuthContext, objectType: string, filter: RecordFilter, now: int)
    requires MayList(cfg, ctx, objectType)
    ensures var reply := S.ListRecords(cfg, db, ctx, objectType, filter, now).reply;
            var whole := WholeList(cfg, db, ctx, objectType, filter);
            var asked := filter.page;
            var limit := if asked.limit < 1 then 1 else if asked.limit > 500 then 500 else asked.limit;
            var offset := if asked.offset < 0 then 0 else asked.offset;
            if offset + limit > MAX_I64 then reply == Err(Overflow)
            else
              var items := whole[MinInt(offset, |whole|)..MinInt(offset + limit, |whole|)];
              reply == Ok(Listing(items, |whole|, limit, offset))
  {
    hide Authorized, EffectiveGrants, ListRows;
    var rows, page := ListRows(cfg, db, ctx, objectType, filter), Clamped(filter.page);
    SliceShown(cfg, ctx, EffectiveGrants(cfg.roles, ctx), LoadType(cfg, ctx.tenantId, objectType).value, objectType,
               rows, MinInt(page.offset, |rows|), MinInt(page.offset + page.limit, |rows|));
  }

  /** A scan is the whole of the unsorted, unsearched list, so its pages concatenate to the scan. */
  lemma ScanIsTheWholeList(
    cfg: Config, db: Db, ctx: AuthContext, objectType: string, filters: seq<FieldFilter>, includeArchived: bool,
    limit: int, n: nat, now: int)
    requires MayList(cfg, ctx, objectType) && 1 <= limit <= 500
    requires |WholeList(cfg, db, ctx, objectType, ScanFilter(filters, includeArchived))| <= n * limit <= MAX_I64
    ensures S.ScanRecords(cfg, db, ctx, objectType, filters, includeArchived, now).reply
            == CollectPages(cfg, db, ctx, objectType, ScanFilter(filters, includeArchived), limit, 0, n, now)
  {
    PagesConcatenate(cfg, db, ctx, objectType, ScanFilter(filters, includeArchived), limit, n, now);
  }

  // ---- the order of a list -------------------------------------------------------------------------

  /** The rows a list keeps, before it sorts them. */
  function Kept(cfg: Config, db: Db, ctx: AuthContext, objectType: string, filter: RecordFilter): seq<Record> {
    Select(cfg, ctx, EffectiveGrants(cfg.roles, ctx), objectType, filter,
           Candidates(db, ctx.tenantId, objectType, filter.includeArchived))
  }

  lemma DirectionDoesNotMatter(
    cfg: Config, db: Db, ctx: AuthContext, objectType: string, filter: RecordFilter, desc: bool)
    ensures Kept(cfg, db, ctx, objectType, filter.(desc := desc)) == Kept(cfg, db, ctx, objectType, filter)
  {
    SelectAlike(cfg, ctx, EffectiveGrants(cfg.roles, ctx), objectType, filter.(desc := desc), filter,
                Candidates(db, ctx.tenantId, objectType, filter.includeArchived));
  }

  /** When the sort field's present values are all numbers or all strings, an ascending list is
      the stable ordered rearrangement of the rows it keeps, those without the field first, and a
      descending one its exact reverse. */
  lemma SortedListsAreStable(cfg: Config, db: Db, ctx: AuthContext, objectType: string, filter: RecordFilter)
    requires filter.sort.Some?
    requires var rows, field := Kept(cfg, db, ctx, objectType, filter), filter.sort.value;
             field == CREATED_AT || AllNumbers(rows, field) || AllStrings(rows, field)
    ensures var up := ListRows(cfg, db, ctx, objectType, filter.(desc := false));
            && StablySorts(ByField(filter.sort.value), Kept(cfg, db, ctx, objectType, filter), up)
            && ListRows(cfg, db, ctx, objectType, filter.(desc := true)) == Reversed(up)
            && forall i, j | 0 <= i < j < |up| && filter.sort.value != CREATED_AT ::
                 filter.sort.value !in up[j].data ==> filter.sort.value !in up[i].data
  {
    hide Candidates, Select, EffectiveGrants, Sorted, StablySorts, AllNumbers, AllStrings, IsPreorder;
    var rows, field := Kept(cfg, db, ctx, objectType, filter), filter.sort.value;
    DirectionDoesNotMatter(cfg, db, ctx, objectType, filter, false);
    DirectionDoesNotMatter(cfg, db, ctx, objectType, filter, true);
    if field == CREATED_AT {
      CreationTimeIsPreorder(rows);
    } else {
      PreorderExactlyWhenHomogeneous(field, rows);
    }
    SortIsStable(ByField(field), rows);
    if field != CREATED_AT {
      MissingSortsFirst(field, rows, ListRows(cfg, db, ctx, objectType, filter.(desc := false)));
    }
  }

  // ---- where listed rows come from -------------------------------------------------------------

  lemma ReversedKeepsRows<T>(s: seq<T>)
    ensures forall x :: x in Reversed(s) <==> x in s
  {
  }

  lemma ArrangeKeepsRows(filter: RecordFilter, rows: seq<Record>)
    ensures |Arrange(filter, rows)| == |rows|
    ensures forall r :: r in Arrange(filter, rows) <==> r in rows
  {
    if filter.sort.Some? {
      SortedKeepsRows(ByField(filter.sort.value), rows);
      ReversedKeepsRows(Sorted(ByField(filter.sort.value), rows));
    }
  }

  /** Every listed row is a stored record of the tenant and type that the caller may read. */
  lemma ListedRowIsStored(
    cfg: Config, db: Db, ctx: AuthContext, objectType: string, filter: RecordFilter, r: Record)
    requires WellFormed(db) && r in ListRows(cfg, db, ctx, objectType, filter)
    ensures LoadRecord(db, ctx.tenantId, r.id) == Some(r)
    ensures IsCandidate(r, ctx.tenantId, objectType, filter.includeArchived)
    ensures Selected(cfg, ctx, EffectiveGrants(cfg.roles, ctx), objectType, filter, r)
  {
    var grants := EffectiveGrants(cfg.roles, ctx);
    var matching := MatchingRows(db.order, db.records, ctx.tenantId, objectType, filter.includeArchived);
    var found := Candidates(db, ctx.tenantId, objectType, filter.includeArchived);
    ArrangeKeepsRows(filter, Select(cfg, ctx, grants, objectType, filter, found));
    assert r in found;
    SortedKeepsRows(NewestFirst, matching);
    assert r in matching;
  }

  /** A row a list shows is shown the same when it is fetched. */
  lemma ListedRowIsGettable(
    cfg: Config, db: Db, ctx: AuthContext, objectType: string, filter: RecordFilter, now: int, r: Record)
    requires WellFormed(db) && r in ListRows(cfg, db, ctx, objectType, filter)
    requires LoadType(cfg, ctx.tenantId, objectType).Some?
    ensures var otype := LoadType(cfg, ctx.tenantId, objectType).value;
            var shown := Shown(cfg, ctx, EffectiveGrants(cfg.roles, ctx), otype, objectType, r);
            shown.id == r.id && S.GetRecord(cfg, db, ctx, r.id, now).reply == Ok(shown)
  {
    hide WellFormed, ListRows, GrantApplies, FieldPermitted;
    ListedRowIsStored(cfg, db, ctx, objectType, filter, r);
  }

  /** Every listed item can be fetched on its own, with exactly the same projected content. */
  lemma ListedItemsAreGettable(
    cfg: Config, db: Db, ctx: AuthContext, objectType: string, filter: RecordFilter, now: int, item: Record)
    requires WellFormed(db)
    requires var reply := S.ListRecords(cfg, db, ctx, objectType, filter, now).reply;
             reply.Ok? && item in reply.value.items
    ensures S.GetRecord(cfg, db, ctx, item.id, now).reply == Ok(item)
  {
    hide WellFormed, ListRows, Shown, Authorized, EffectiveGrants, S.GetRecord;
    var rows := ListRows(cfg, db, ctx, objectType, filter);
    var otype := LoadType(cfg, ctx.tenantId, objectType).value;
    var page := PageOf(rows, Clamped(filter.page));
    var shown := ShownAll(cfg, ctx, EffectiveGrants(cfg.roles, ctx), otype, objectType, page);
    var i :| 0 <= i < |shown| && shown[i] == item;
    assert page[i] in rows;
    ListedRowIsGettable(cfg, db, ctx, objectType, filter, now, page[i]);
  }

  /** So can every scanned record. */
  lemma ScannedItemsAreGettable(
    cfg: Config, db: Db, ctx: AuthContext, objectType: string, filters: seq<FieldFilter>, includeArchived: bool,
    now: int, item: Record)
    requires WellFormed(db)
    requires var reply := S.ScanRecords(cfg, db, ctx, objectType, filters, includeArchived, now).reply;
             reply.Ok? && item in reply.value
    ensures S.GetRecord(cfg, db, ctx, item.id, now).reply == Ok(item)
  {
    hide WellFormed, ListRows, Shown, Scan, Authorized, EffectiveGrants, S.GetRecord;
    var filter := ScanFilter(filters, includeArchived);
    var rows := ListRows(cfg, db, ctx, objectType, filter);
    var otype := LoadType(cfg, ctx.tenantId, objectType).value;
    var shown := ShownAll(cfg, ctx, EffectiveGrants(cfg.roles, ctx), otype, objectType, rows);
    ScanShowsListRows(cfg, db, ctx, otype, objectType, filters, includeArchived);
    var i :| 0 <= i < |shown| && shown[i] == item;
    ListedRowIsGettable(cfg, db, ctx, objectType, filter, now, rows[i]);
  }

  lemma ScanShowsListRows(
    cfg: Config, db: Db, ctx: AuthContext, otype: ObjectType, objectType: string, filters: seq<FieldFilter>,
    includeArchived: bool)
    ensures Scan(cfg, db, ctx, otype, objectType, filters, includeArchived)
            == ShownAll(cfg, ctx, EffectiveGrants(cfg.roles, ctx), otype, objectType,
                        ListRows(cfg, db, ctx, objectType, ScanFilter(filters, includeArchived)))
  {
  }

  lemma {:induction false} MatchingRowsAreAll(
    order: seq<RowKey>, records: map<string, Record>, tenantId: string, objectType: string, includeArchived: bool,
    id: string)
    requires RowKey(tenantId, id) in order && id in records
    requires IsCandidate(records[id], tenantId, objectType, includeArchived)
    ensures records[id] in MatchingRows(order, records, tenantId, objectType, includeArchived)
  {
    if order[|order| - 1] != RowKey(tenantId, id) {
      MatchingRowsAreAll(order[..|order| - 1], records, tenantId, objectType, includeArchived, id);
    }
  }

  /** An unfiltered list of a type within the scan bound leaves nothing out: its rows are exactly
      the stored, unarchived records of the type that the caller can fetch one by one. */
  lemma ListsExactlyTheGettable(cfg: Config, db: Db, ctx: AuthContext, objectType: string, now: int, id: string)
    requires WellFormed(db) && LoadType(cfg, ctx.tenantId, objectType).Some?
    requires |MatchingRows(db.order, db.records, ctx.tenantId, objectType, false)| <= MAX_SCAN
    ensures (exists r :: r in ListRows(cfg, db, ctx, objectType, ScanFilter([], false)) && r.id == id) <==>
            && LoadRecord(db, ctx.tenantId, id).Some?
            && IsCandidate(db.records[id], ctx.tenantId, objectType, false)
            && S.GetRecord(cfg, db, ctx, id, now).reply.Ok?
  {
    var filter, rows := ScanFilter([], false), ListRows(cfg, db, ctx, objectType, ScanFilter([], false));
    if r :| r in rows && r.id == id {
      ListedRowIsStored(cfg, db, ctx, objectType, filter, r);
    }
    if LoadRecord(db, ctx.tenantId, id).Some? && IsCandidate(db.records[id], ctx.tenantId, objectType, false)
       && S.GetRecord(cfg, db, ctx, id, now).reply.Ok? {
      var r := db.records[id];
      MatchingRowsAreAll(db.order, db.records, ctx.tenantId, objectType, false, id);
      SortedKeepsRows(NewestFirst, MatchingRows(db.order, db.records, ctx.tenantId, objectType, false));
      assert r in Candidates(db, ctx.tenantId, objectType, false);
      assert Selected(cfg, ctx, EffectiveGrants(cfg.roles, ctx), objectType, filter, r);
      assert r in rows && r.id == id;
    }
  }

  // ---- nothing listed twice --------------------------------------------------------------------

  lemma {:induction false} MatchingRowsOnce(
    order: seq<RowKey>, records: map<string, Record>, tenantId: string, objectType: string, includeArchived: bool,
    r: Record)
    requires forall i, j | 0 <= i < j < |order| :: order[i].id != order[j].id
    requires forall id | id in records :: records[id].id == id
    ensures multiset(MatchingRows(order, records, tenantId, objectType, includeArchived))[r] <= 1
    ensures r in MatchingRows(order, records, tenantId, objectType, includeArchived)
            ==> exists k | k in order :: k.id == r.id
  {
    if order != [] {
      var init, last := order[..|order| - 1], order[|order| - 1];
      MatchingRowsOnce(init, records, tenantId, objectType, includeArchived, r);
      var rows := MatchingRows(init, records, tenantId, objectType, includeArchived);
      if r in rows {
        var k :| k in init && k.id == r.id;
        var i :| 0 <= i < |init| && init[i] == k;
        assert order[i].id != last.id;
        assert k in order;
      } else {
        assert multiset(rows)[r] == 0;
      }
    }
  }

  lemma {:induction false} SelectKeepsCounts(
    cfg: Config, ctx: AuthContext, grants: seq<Grant>, objectType: string, filter: RecordFilter, rows: seq<Record>,
    r: Record)
    ensures multiset(Select(cfg, ctx, grants, objectType, filter, rows))[r] <= multiset(rows)[r]
  {
    if rows != [] {
      assert rows == rows[..|rows| - 1] + [rows[|rows| - 1]];
      SelectKeepsCounts(cfg, ctx, grants, objectType, filter, rows[..|rows| - 1], r);
    }
  }

  lemma TakeKeepsCounts(rows: seq<Record>, n: nat, r: Record)
    ensures multiset(Take(rows, n))[r] <= multiset(rows)[r]
  {
    if n < |rows| {
      assert rows == rows[..n] + rows[n..];
    }
  }

  lemma {:induction false} ReversedKeepsCounts(rows: seq<Record>)
    ensures multiset(Reversed(rows)) == multiset(rows)
  {
    if rows != [] {
      assert rows == rows[..|rows| - 1] + [rows[|rows| - 1]];
      ReversedKeepsCounts(rows[..|rows| - 1]);
    }
  }

  /** No record is listed twice. */
  lemma ListedOnce(cfg: Config, db: Db, ctx: AuthContext, objectType: string, filter: RecordFilter, i: nat, j: nat)
    requires WellFormed(db) && i < j < |ListRows(cfg, db, ctx, objectType, filter)|
    ensures var rows := ListRows(cfg, db, ctx, objectType, filter); rows[i].id != rows[j].id
  {
    hide ListRows, WellFormed, IsCandidate, Selected;
    var rows := ListRows(cfg, db, ctx, objectType, filter);
    var r := rows[i];
    if r.id == rows[j].id {
      ListedRowIsStored(cfg, db, ctx, objectType, filter, r);
      ListedRowIsStored(cfg, db, ctx, objectType, filter, rows[j]);
      assert rows == rows[..i] + [r] + rows[i + 1..j] + [r] + rows[j + 1..];
      assert multiset(rows)[r] >= 2;
      CountsOnce(cfg, db, ctx, objectType, filter, r);
    }
  }

  lemma CountsOnce(cfg: Config, db: Db, ctx: AuthContext, objectType: string, filter: RecordFilter, r: Record)
    requires WellFormed(db)
    ensures multiset(ListRows(cfg, db, ctx, objectType, filter))[r] <= 1
  {
    hide MatchingRows, Select, EffectiveGrants, Reversed;
    var matching := MatchingRows(db.order, db.records, ctx.tenantId, objectType, filter.includeArchived);
    var newest := Sorted(NewestFirst, matching);
    var found := Take(newest, MAX_SCAN);
    var kept := Select(cfg, ctx, EffectiveGrants(cfg.roles, ctx), objectType, filter, found);
    MatchingRowsOnce(db.order, db.records, ctx.tenantId, objectType, filter.includeArchived, r);
    SortedKeepsRows(NewestFirst, matching);
    TakeKeepsCounts(newest, MAX_SCAN, r);
    SelectKeepsCounts(cfg, ctx, EffectiveGrants(cfg.roles, ctx), objectType, filter, found, r);
    if filter.sort.Some? {
      SortedKeepsRows(ByField(filter.sort.value), kept);
      ReversedKeepsCounts(Sorted(ByField(filter.sort.value), kept));
    }
  }
}
