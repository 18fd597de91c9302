/** What the numbers and groups of a report say of the values its records hold. */
module Aggregates {
  import opened Values
  import opened Contracts
  import opened Store
  import opened ReadPath
  import opened ListAgreement
  import opened Filtering
  import opened Analytics
  import S = Services

  /** The number a value counts as: flags count one or nothing, and only numbers and flags count. */
  ghost predicate CountsAs(v: Value, n: real) {
    v == Flt(n) || (v.Int? && v.i as real == n) || (v == Bool(true) && n == 1.0) || (v == Bool(false) && n == 0.0)
  }

  ghost predicate Brings(r: Record, field: string, n: real) {
    field in r.data && CountsAs(r.data[field], n)
  }

  ghost predicate BringsOne(r: Record, field: string) {
    exists n :: Brings(r, field, n)
  }

  /** How many of the records bring a number. */
  ghost function Bringing(rows: seq<Record>, field: string): nat {
    if rows == [] then 0
    else Bringing(rows[..|rows| - 1], field) + if BringsOne(rows[|rows| - 1], field) then 1 else 0
  }

  lemma ContributionMeans(r: Record, field: string)
    ensures forall n :: Contribution(r, Some(field)) == Some(n) <==> Brings(r, field, n)
  {
  }

  lemma {:induction false} NumbersAreBrought(rows: seq<Record>, field: string)
    ensures |Numbers(rows, Some(field))| == Bringing(rows, field)
    ensures forall n :: n in Numbers(rows, Some(field)) <==> exists r | r in rows :: Brings(r, field, n)
  {
    hide Contribution, Brings;
    if rows != [] {
      var init, last := rows[..|rows| - 1], rows[|rows| - 1];
      assert rows == init + [last];
      NumbersAreBrought(init, field);
      ContributionMeans(last, field);
      var c := Contribution(last, Some(field));
      if c.Some? {
        assert Brings(last, field, c.value);
      }
    }
  }

  /** The ungrouped report over the rows. */
  function Plain(rows: seq<Record>, op: AggOp, field: string, render: Value -> string): Extended {
    Report(rows, ReportDef("", op, Some(field), [], None), render).value.value
  }

  /** A count counts all records, whether or not they bring a number. A sum starts at nothing, and each
      record adds what it brings. */
  lemma SumsAddWhatIsBrought(rows: seq<Record>, r: Record, field: string, render: Value -> string)
    ensures Plain(rows, Count, field, render) == Fin(|rows| as real)
    ensures Plain([], Sum, field, render) == Fin(0.0)
    ensures Plain(rows, Sum, field, render).Fin?
    ensures forall n | Brings(r, field, n) ::
              Plain(rows + [r], Sum, field, render) == Fin(Plain(rows, Sum, field, render).r + n)
    ensures (forall n :: !Brings(r, field, n)) ==>
              Plain(rows + [r], Sum, field, render) == Plain(rows, Sum, field, render)
  {
    hide Contribution;
    ContributionMeans(r, field);
    assert (rows + [r])[..|rows|] == rows;
    var c, vals := Contribution(r, Some(field)), Numbers(rows, Some(field));
    if c.Some? {
      assert (vals + [c.value])[..|vals|] == vals;
    } else {
      assert vals + [] == vals;
    }
  }

  /** An average times the number of records that bring one is the sum; with none it is zero. */
  lemma AveragesTimesCountAreSums(rows: seq<Record>, field: string, render: Value -> string)
    ensures var avg, sum := Plain(rows, Avg, field, render), Plain(rows, Sum, field, render);
            && avg.Fin? && sum.Fin? && avg.r * Bringing(rows, field) as real == sum.r
            && (Bringing(rows, field) == 0 ==> avg.r == 0.0)
  {
    hide SumOf, Numbers, Bringing;
    NumbersAreBrought(rows, field);
    var vals := Numbers(rows, Some(field));
    if vals == [] {
      NothingSums();
      Nothing(0.0);
    } else {
      TimesBack(SumOf(vals), |vals| as real);
    }
  }

  lemma NothingSums()
    ensures SumOf([]) == 0.0
  {
  }

  lemma TimesBack(x: real, n: real)
    requires n > 0.0
    ensures (x / n) * n == x
  {
  }

  /** The least and the greatest are brought by some record, and no record brings less or more;
      with none bringing any, they are the far infinities. */
  lemma ExtremesAreBrought(rows: seq<Record>, field: string, render: Value -> string)
    ensures var least, most := Plain(rows, Min, field, render), Plain(rows, Max, field, render);
            && (Bringing(rows, field) == 0 ==> least == PosInf && most == NegInf)
            && (Bringing(rows, field) > 0 ==>
                  && least.Fin? && (exists r | r in rows :: Brings(r, field, least.r))
                  && most.Fin? && (exists r | r in rows :: Brings(r, field, most.r))
                  && forall r, n | r in rows && Brings(r, field, n) :: least.r <= n <= most.r)
  {
    hide Numbers, Bringing, MinOf, MaxOf, Brings;
    NumbersAreBrought(rows, field);
    ExtremesAreExtreme(Numbers(rows, Some(field)));
    forall r, n | r in rows && Brings(r, field, n) ensures n in Numbers(rows, Some(field)) {
    }
  }

  // ---- which records a report is of ------------------------------------------------------------------

  ghost predicate Apart(rows: seq<Record>) {
    forall i, j | 0 <= i < j < |rows| :: rows[i].id != rows[j].id
  }

  lemma {:induction false} ApartAreAsMany(rows: seq<Record>, ids: set<string>)
    requires Apart(rows) && forall id :: id in ids <==> Among(rows, id)
    ensures |ids| == |rows|
  {
    if rows == [] {
      forall id ensures id !in ids {
        assert !Among(rows, id);
      }
      assert ids == {};
    } else {
      var init, last := rows[..|rows| - 1], rows[|rows| - 1];
      assert rows == init + [last];
      forall id ensures id in ids - {last.id} <==> Among(init, id) {
        assert id in ids <==> Among(rows, id);
      }
      ApartAreAsMany(init, ids - {last.id});
      assert Among(rows, last.id);
    }
  }

  /** The records of the type that are not archived and that a scan shows the caller. */
  ghost function Reported(cfg: Config, db: Db, ctx: AuthContext, def: ReportDef, now: int): set<string> {
    set id | id in db.records && Scanned(cfg, db, ctx, def.objectType, def.filters, false, id, now)
  }

  /** A report samples just the records that a scan without archived ones shows its caller, each once. */
  lemma ReportsSampleTheScanned(cfg: Config, db: Db, ctx: AuthContext, def: ReportDef, now: int)
    requires WellFormed(db) && S.RunReportDef(cfg, db, ctx, def, now).reply.Ok?
    ensures var report := S.RunReportDef(cfg, db, ctx, def, now).reply.value;
            && report.sampleSize == |Reported(cfg, db, ctx, def, now)|
            && (def.groupBy.None? && def.op.Count? ==>
                  report.value == Some(Fin(|Reported(cfg, db, ctx, def, now)| as real)))
            && forall id | id in Reported(cfg, db, ctx, def, now) :: db.records[id].lifecycle.Active?
  {
    hide WellFormed, ListRows, Scan, Summaries, Group, Scanned;
    var filter := ScanFilter(def.filters, false);
    var rows := ListRows(cfg, db, ctx, def.objectType, filter);
    forall i, j | 0 <= i < j < |rows| ensures rows[i].id != rows[j].id {
      ListedOnce(cfg, db, ctx, def.objectType, filter, i, j);
    }
    forall id
      ensures id in Reported(cfg, db, ctx, def, now) <==> Among(rows, id)
      ensures id in Reported(cfg, db, ctx, def, now) ==> db.records[id].lifecycle.Active?
    {
      ScannedExactly(cfg, db, ctx, def.objectType, def.filters, false, id, now);
      if r :| r in rows && r.id == id {
        ListedRowIsStored(cfg, db, ctx, def.objectType, filter, r);
      }
    }
    ApartAreAsMany(rows, Reported(cfg, db, ctx, def, now));
    var otype := LoadType(cfg, ctx.tenantId, def.objectType).value;
    ScanShowsListRows(cfg, db, ctx, otype, def.objectType, def.filters, false);
  }

  // ---- groups ---------------------------------------------------------------------------------------

  /** The group a record belongs to: its text, "(none)" without a value, or the value as it renders. */
  predicate BelongsTo(r: Record, field: string, render: Value -> string, key: string) {
    var held := Lookup(r.data, field);
    if held == None || held == Some(Null) then key == "(none)"
    else if held.value.Str? then held == Some(Str(key))
    else key == render(held.value)
  }

  lemma {:induction false} GroupRowsBelong(rows: seq<Record>, field: string, render: Value -> string, key: string)
    ensures forall r :: r in RowsWithKey(rows, field, render, key) <==> r in rows && BelongsTo(r, field, render, key)
  {
    if rows != [] {
      assert rows == rows[..|rows| - 1] + [rows[|rows| - 1]];
      GroupRowsBelong(rows[..|rows| - 1], field, render, key);
    }
  }

  /** Every group of a grouped report has a record, holds exactly the records that belong to it, in
      their order, and every record belongs to one; groups come in code-point order of their keys. */
  lemma GroupsAreByValue(rows: seq<Record>, def: ReportDef, render: Value -> string, r: Record)
    requires def.groupBy.Some? && r in rows
    ensures var buckets, groups := Group(rows, def.groupBy.value, render), Report(rows, def, render).groups;
            && |groups| == |buckets| && KeysIncrease(buckets)
            && (forall i | 0 <= i < |groups| ::
                  && groups[i].key == buckets[i].key && groups[i].count == |buckets[i].rows| > 0
                  && forall x :: x in buckets[i].rows
                                 <==> x in rows && BelongsTo(x, def.groupBy.value, render, groups[i].key))
            && exists i | 0 <= i < |groups| :: BelongsTo(r, def.groupBy.value, render, groups[i].key)
  {
    hide Group, RowsWithKey, Compute, KeysIncrease, BelongsTo;
    var field := def.groupBy.value;
    var buckets := Group(rows, field, render);
    GroupsPartition(rows, field, render);
    forall i | 0 <= i < |buckets|
      ensures buckets[i].rows == RowsWithKey(rows, field, render, buckets[i].key) && buckets[i].rows != []
      ensures forall x :: x in buckets[i].rows <==> x in rows && BelongsTo(x, field, render, buckets[i].key)
    {
      assert buckets[i] in buckets;
      GroupRowsBelong(rows, field, render, buckets[i].key);
    }
    var key := GroupKey(r, field, render);
    Belonging(r, field, render);
    GroupRowsBelong(rows, field, render, key);
    var b :| b in buckets && b.key == key;
    var i :| 0 <= i < |buckets| && buckets[i] == b;
    assert BelongsTo(r, field, render, Report(rows, def, render).groups[i].key);
  }

  lemma Belonging(r: Record, field: string, render: Value -> string)
    ensures BelongsTo(r, field, render, GroupKey(r, field, render))
  {
  }
}
