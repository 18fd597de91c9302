/** The permission-aware read path: which records a caller's list or scan returns, and how
    each is projected. */
module ReadPath {
  import opened Values
  import opened Contracts
  import opened Rbac
  import opened Sorting
  import opened Store

  datatype Listing = Listing(items: seq<Record>, total: nat, limit: int, offset: int)

  const MAX_I64: int := 0x7FFF_FFFF_FFFF_FFFF

  /** Some string value of the record contains the needle, case-folded. */
  predicate MatchesSearch(r: Record, needle: string, toLower: string -> string) {
    exists k | k in r.data :: r.data[k].Str? && IsSubstring(needle, toLower(r.data[k].s))
  }

  predicate MatchesFilter(r: Record, f: FieldFilter) {
    f.field in r.data && Compare(r.data[f.field], f.op, f.value)
  }

  predicate MatchesFilters(r: Record, fs: seq<FieldFilter>) {
    forall f | f in fs :: MatchesFilter(r, f)
  }

  predicate Readable(cfg: Config, ctx: AuthContext, grants: seq<Grant>, objectType: string, r: Record) {
    GrantsAllow(cfg.advancedPermissions, grants, ctx, Read, ObjectResource(objectType), Some(r))
  }

  /** A search that is absent or blank selects everything. */
  predicate Found(r: Record, search: Option<string>, toLower: string -> string) {
    search.Some? && search.value != [] ==> MatchesSearch(r, toLower(search.value), toLower)
  }

  predicate Selected(
    cfg: Config, ctx: AuthContext, grants: seq<Grant>, objectType: string, filter: RecordFilter, r: Record)
  {
    && Readable(cfg, ctx, grants, objectType, r)
    && Found(r, filter.search, cfg.toLower)
    && MatchesFilters(r, filter.filters)
  }

  /** The selected rows, in order. */
  function Select(
    cfg: Config, ctx: AuthContext, grants: seq<Grant>, objectType: string, filter: RecordFilter,
    rows: seq<Record>): (r: seq<Record>)
    ensures forall x :: x in r <==> x in rows && Selected(cfg, ctx, grants, objectType, filter, x)
    ensures |r| <= |rows|
  {
    if rows == [] then []
    else
      Select(cfg, ctx, grants, objectType, filter, rows[..|rows| - 1])
      + (var last := rows[|rows| - 1];
         if Selected(cfg, ctx, grants, objectType, filter, last) then [last] else [])
  }

  function Arrange(filter: RecordFilter, rows: seq<Record>): seq<Record> {
    if filter.sort.None? then rows
    else
      var sorted := Sorted(ByField(filter.sort.value), rows);
      if filter.desc then Reversed(sorted) else sorted
  }

  /** A row as the list and scan paths show it to the caller. */
  function Shown(
    cfg: Config, ctx: AuthContext, grants: seq<Grant>, otype: ObjectType, objectType: string, r: Record): Record
  {
    if Trusted(ctx) then r
    else
      Project(r, Applicable(cfg.advancedPermissions, grants, ctx, Read, ObjectResource(objectType), Some(r)), otype)
  }

  function ShownAll(
    cfg: Config, ctx: AuthContext, grants: seq<Grant>, otype: ObjectType, objectType: string,
    rows: seq<Record>): (r: seq<Record>)
    ensures |r| == |rows|
    ensures forall i | 0 <= i < |rows| :: r[i] == Shown(cfg, ctx, grants, otype, objectType, rows[i])
  {
    if rows == [] then []
    else
      ShownAll(cfg, ctx, grants, otype, objectType, rows[..|rows| - 1])
      + [Shown(cfg, ctx, grants, otype, objectType, rows[|rows| - 1])]
  }

  /** The filtered and sorted rows a list pages through. */
  function ListRows(
    cfg: Config, db: Db, ctx: AuthContext, objectType: string, filter: RecordFilter): seq<Record>
  {
    Arrange(filter,
            Select(cfg, ctx, EffectiveGrants(cfg.roles, ctx), objectType, filter,
                   Candidates(db, ctx.tenantId, objectType, filter.includeArchived)))
  }

  function MinInt(a: int, b: int): int {
    if a < b then a else b
  }

  /** The slice of the rows a page asks for. */
  function PageOf<T>(rows: seq<T>, page: Page): (r: seq<T>)
    requires 1 <= page.limit && 0 <= page.offset
  {
    rows[MinInt(page.offset, |rows|)..MinInt(page.offset + page.limit, |rows|)]
  }

  /** `list_records` past its permission check. The 64-bit sum of offset and limit must not
      overflow, or the call panics. */
  function ListPage(
    cfg: Config, db: Db, ctx: AuthContext, otype: ObjectType, objectType: string, filter: RecordFilter)
    : Result<Listing>
  {
    var rows := ListRows(cfg, db, ctx, objectType, filter);
    var page := Clamped(filter.page);
    if page.offset + page.limit > MAX_I64 then Err(Overflow)
    else
      Ok(Listing(ShownAll(cfg, ctx, EffectiveGrants(cfg.roles, ctx), otype, objectType, PageOf(rows, page)),
                 |rows|, page.limit, page.offset))
  }

  /** The part of a filter that a scan heeds: no search, no sort, no paging. */
  function ScanFilter(filters: seq<FieldFilter>, includeArchived: bool): RecordFilter {
    RecordFilter(filters, None, None, false, includeArchived, Page(50, 0))
  }

  /** `scan_records` past its permission check. */
  function Scan(
    cfg: Config, db: Db, ctx: AuthContext, otype: ObjectType, objectType: string, filters: seq<FieldFilter>,
    includeArchived: bool): seq<Record>
  {
    var grants := EffectiveGrants(cfg.roles, ctx);
    ShownAll(cfg, ctx, grants, otype, objectType,
             Select(cfg, ctx, grants, objectType, ScanFilter(filters, includeArchived),
                    Candidates(db, ctx.tenantId, objectType, includeArchived)))
  }

  // ---- the in-place pipeline -------------------------------------------------------------

  /** `records.retain(...)` for the permission test, then the search, then each filter clause
      in turn, equals one selection by all three together. */
  method RetainInStages(
    cfg: Config, ctx: AuthContext, grants: seq<Grant>, objectType: string, filter: RecordFilter,
    rows: seq<Record>) returns (kept: seq<Record>)
    ensures kept == Select(cfg, ctx, grants, objectType, filter, rows)
  {
    var none := filter.(search := None, filters := []);
    kept := [];
    for i := 0 to |rows|
      invariant kept == Select(cfg, ctx, grants, objectType, none, rows[..i])
    {
      assert rows[..i + 1][..i] == rows[..i];
      if Readable(cfg, ctx, grants, objectType, rows[i]) {
        kept := kept + [rows[i]];
      }
    }
    assert rows[..|rows|] == rows;
    if filter.search.Some? && filter.search.value != [] {
      kept := RetainFound(cfg, ctx, grants, objectType, none, filter.search, rows, kept);
    } else {
      SelectAlike(cfg, ctx, grants, objectType, none, none.(search := filter.search), rows);
    }
    var n := 0;
    while n < |filter.filters|
      invariant 0 <= n <= |filter.filters|
      invariant kept == Select(cfg, ctx, grants, objectType, filter.(filters := filter.filters[..n]), rows)
    {
      kept := RetainClause(cfg, ctx, grants, objectType, filter, n, rows, kept);
      n := n + 1;
    }
    assert filter.(filters := filter.filters[..n]) == filter;
  }

  method RetainFound(
    cfg: Config, ctx: AuthContext, grants: seq<Grant>, objectType: string, none: RecordFilter,
    search: Option<string>, ghost rows: seq<Record>, kept: seq<Record>) returns (out: seq<Record>)
    requires none.search.None? && search.Some? && search.value != []
    requires kept == Select(cfg, ctx, grants, objectType, none, rows)
    ensures out == Select(cfg, ctx, grants, objectType, none.(search := search), rows)
  {
    hide Readable, MatchesSearch, MatchesFilters;
    var needle := cfg.toLower(search.value);
    out := [];
    for i := 0 to |kept|
      invariant out == Select(cfg, ctx, grants, objectType, none.(search := search), kept[..i])
    {
      assert kept[..i + 1][..i] == kept[..i];
      assert kept[i] in kept;
      if MatchesSearch(kept[i], needle, cfg.toLower) {
        out := out + [kept[i]];
      }
    }
    assert kept[..|kept|] == kept;
    SelectTwice(cfg, ctx, grants, objectType, none, none.(search := search), rows);
  }

  method RetainClause(
    cfg: Config, ctx: AuthContext, grants: seq<Grant>, objectType: string, filter: RecordFilter, n: nat,
    ghost rows: seq<Record>, kept: seq<Record>) returns (out: seq<Record>)
    requires n < |filter.filters|
    requires kept == Select(cfg, ctx, grants, objectType, filter.(filters := filter.filters[..n]), rows)
    ensures out == Select(cfg, ctx, grants, objectType, filter.(filters := filter.filters[..n + 1]), rows)
  {
    ghost var before, after := filter.(filters := filter.filters[..n]), filter.(filters := filter.filters[..n + 1]);
    assert forall f :: f in after.filters <==> f in before.filters || f == filter.filters[n];
    out := [];
    for i := 0 to |kept|
      invariant out == Select(cfg, ctx, grants, objectType, after, kept[..i])
    {
      assert kept[..i + 1][..i] == kept[..i];
      assert kept[i] in kept;
      if MatchesFilter(kept[i], filter.filters[n]) {
        out := out + [kept[i]];
      }
    }
    assert kept[..|kept|] == kept;
    SelectTwice(cfg, ctx, grants, objectType, before, after, rows);
  }

  lemma {:induction false} SelectTwice(
    cfg: Config, ctx: AuthContext, grants: seq<Grant>, objectType: string, wide: RecordFilter,
    narrow: RecordFilter, rows: seq<Record>)
    requires forall r | r in rows :: Selected(cfg, ctx, grants, objectType, narrow, r)
                                     ==> Selected(cfg, ctx, grants, objectType, wide, r)
    ensures Select(cfg, ctx, grants, objectType, narrow, Select(cfg, ctx, grants, objectType, wide, rows))
            == Select(cfg, ctx, grants, objectType, narrow, rows)
  {
    if rows != [] {
      var init, last := rows[..|rows| - 1], rows[|rows| - 1];
      SelectTwice(cfg, ctx, grants, objectType, wide, narrow, init);
      var kept := Select(cfg, ctx, grants, objectType, wide, init);
      assert last in rows;
      if Selected(cfg, ctx, grants, objectType, wide, last) {
        assert (kept + [last])[..|kept|] == kept;
      } else {
        assert kept + [] == kept;
      }
    }
  }

  lemma {:induction false} SelectAlike(
    cfg: Config, ctx: AuthContext, grants: seq<Grant>, objectType: string, a: RecordFilter, b: RecordFilter,
    rows: seq<Record>)
    requires forall r | r in rows :: Selected(cfg, ctx, grants, objectType, a, r)
                                     <==> Selected(cfg, ctx, grants, objectType, b, r)
    ensures Select(cfg, ctx, grants, objectType, a, rows) == Select(cfg, ctx, grants, objectType, b, rows)
  {
    if rows != [] {
      assert rows[|rows| - 1] in rows;
      SelectAlike(cfg, ctx, grants, objectType, a, b, rows[..|rows| - 1]);
    }
  }
}
